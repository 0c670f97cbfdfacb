/**
 * `Repo.metrics()`: yesterday's date, the clones and views records selected
 * for it, and the aggregate totals, assembled into one document. The clock,
 * the fresh UUID and the three HTTP responses are parameters.
 */
module Tracker {
  import opened Wrappers
  import opened Decimal
  import opened JsonValues
  import opened Calendar
  import opened Traffic
  import opened Output

  /** The three responses one run receives for a repository: a status code and the decoded body. */
  datatype Responses = Responses(
    clonesStatus: int, clones: Json,
    viewsStatus: int, views: Json,
    queryStatus: int, query: Json)

  /** Arguments are evaluated left to right, so a failure reading clones is reported before one reading views. */
  function RepoMetrics(today: Date, id: string, name: string, responses: Responses): Result<Document, PyError>
    requires Valid(today) && today != First
  {
    var date := YesterdaysDate(today);
    var clones :- ValidateDate(Received(responses.clonesStatus, responses.clones), MetricName(Clones), date);
    var views :- ValidateDate(Received(responses.viewsStatus, responses.views), MetricName(Views), date);
    BuildOutput(id, date, name, clones, views, Received(responses.queryStatus, responses.query))
  }

  /** `i` is the first day of `report` whose timestamp falls on `date`. */
  predicate FirstOn(report: TrafficReport, date: string, i: nat)
  {
    && i < |report.days|
    && Prefix10(report.days[i].timestamp) == date
    && forall j :: 0 <= j < i ==> Prefix10(report.days[j].timestamp) != date
  }

  /**
   * When every request succeeds and both series hold yesterday, the document is
   * dated yesterday and reports that day's counts and the current totals.
   */
  lemma ReportsYesterday(
    today: Date, id: string, name: string,
    clones: TrafficReport, ci: nat, views: TrafficReport, vi: nat, a: Aggregates)
    requires Valid(today) && today != First
    requires FirstOn(clones, YesterdaysDate(today), ci)
    requires FirstOn(views, YesterdaysDate(today), vi)
    ensures var r := RepoMetrics(today, id, name,
        Responses(200, ReportJson(Clones, clones), 200, ReportJson(Views, views), 200, AggregatesJson(a)));
      && r.Ok?
      && r.value.id == id && r.value.repo == name && r.value.category == "GitHub Repo"
      && ParseIso(r.value.date) == Some(Predecessor(today))
      && ParseDecimal(r.value.metrics.clones.count) == Some(clones.days[ci].count)
      && ParseDecimal(r.value.metrics.clones.unique) == Some(clones.days[ci].uniques)
      && ParseDecimal(r.value.metrics.views.count) == Some(views.days[vi].count)
      && ParseDecimal(r.value.metrics.views.unique) == Some(views.days[vi].uniques)
      && ParseDecimal(r.value.metrics.forks) == Some(a.forks)
      && ParseDecimal(r.value.metrics.watchers) == Some(a.watchers)
      && ParseDecimal(r.value.metrics.stars) == Some(a.stargazers)
      && ParseDecimal(r.value.metrics.pullRequests) == Some(a.pullRequests)
  {
    var date := YesterdaysDate(today);
    SelectsFirstDayOnTarget(Clones, clones, date, ci);
    SelectsFirstDayOnTarget(Views, views, date, vi);
    var c := clones.days[ci];
    var v := views.days[vi];
    BuildOutputCarriesCounts(id, date, name, DayJson(c), c.count, c.uniques, DayJson(v), v.count, v.uniques, a);
  }

  /**
   * Empty series: the selection hands back the whole response, so the document
   * reports the response's window totals where the zero record would have
   * reported 0.
   */
  lemma EmptySeriesReportsTotals(
    today: Date, id: string, name: string,
    clones: TrafficReport, views: TrafficReport, a: Aggregates)
    requires Valid(today) && today != First
    requires clones.days == [] && views.days == []
    ensures var r := RepoMetrics(today, id, name,
        Responses(200, ReportJson(Clones, clones), 200, ReportJson(Views, views), 200, AggregatesJson(a)));
      && r.Ok?
      && ParseDecimal(r.value.metrics.clones.count) == Some(clones.count)
      && ParseDecimal(r.value.metrics.clones.unique) == Some(clones.uniques)
      && ParseDecimal(r.value.metrics.views.count) == Some(views.count)
      && ParseDecimal(r.value.metrics.views.unique) == Some(views.uniques)
  {
    var date := YesterdaysDate(today);
    EmptySeriesReturnsResponse(Clones, clones, date);
    EmptySeriesReturnsResponse(Views, views, date);
    BuildOutputCarriesCounts(id, date, name,
      ReportJson(Clones, clones), clones.count, clones.uniques,
      ReportJson(Views, views), views.count, views.uniques, a);
  }

  /** A failed traffic or query request produces no document. */
  lemma FailedRequestGivesNoDocument(today: Date, id: string, name: string, responses: Responses)
    requires Valid(today) && today != First
    requires responses.clonesStatus != 200 || responses.viewsStatus != 200 || responses.queryStatus != 200
    ensures RepoMetrics(today, id, name, responses).Err?
  {
    var date := YesterdaysDate(today);
    if responses.clonesStatus != 200 {
      UnavailableDataRaises(responses.clonesStatus, responses.clones, Clones, date);
    } else if responses.viewsStatus != 200 {
      UnavailableDataRaises(responses.viewsStatus, responses.views, Views, date);
    } else {
      assert Received(responses.queryStatus, responses.query) == Null;
    }
  }
}
