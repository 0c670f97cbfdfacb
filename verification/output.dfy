/**
 * Document assembly (`Repo._build_output`): one output record per repository
 * per run, every count rendered as a decimal string.
 */
module Output {
  import opened Wrappers
  import opened Decimal
  import opened JsonValues

  datatype CountPair = CountPair(count: string, unique: string)

  datatype Metrics = Metrics(
    views: CountPair,
    clones: CountPair,
    forks: string,
    watchers: string,
    stars: string,
    pullRequests: string)

  datatype Document = Document(id: string, category: string, date: string, repo: string, metrics: Metrics)

  const Category := "GitHub Repo"

  /** `"{}".format(record[key])` */
  function FormatField(record: Json, key: string): Result<string, PyError>
  {
    var v :- Subscript(record, key);
    Format(v)
  }

  /** `"{}".format(repository[connection]["totalCount"])` */
  function FormatTotal(repository: Json, connection: string): Result<string, PyError>
  {
    var c :- Subscript(repository, connection);
    FormatField(c, "totalCount")
  }

  /** The `count` / `unique` pair of a views or clones record. */
  function CountsOf(record: Json): Result<CountPair, PyError>
  {
    var count :- FormatField(record, "count");
    var unique :- FormatField(record, "uniques");
    Ok(CountPair(count, unique))
  }

  /**
   * `_build_output(date, repo, clones, views, query)` with the fresh UUID passed
   * in as `id`. Lookups happen in the source's evaluation order, so the first
   * missing key is the one reported.
   */
  function BuildOutput(id: string, date: string, repo: string, clones: Json, views: Json, query: Json): Result<Document, PyError>
  {
    var data :- Subscript(query, "data");
    var repository :- Subscript(data, "repository");
    var viewCounts :- CountsOf(views);
    var cloneCounts :- CountsOf(clones);
    var forks :- FormatTotal(repository, "forks");
    var watchers :- FormatTotal(repository, "watchers");
    var stars :- FormatTotal(repository, "stargazers");
    var pullRequests :- FormatTotal(repository, "pullRequests");
    Ok(Document(id, Category, date, repo, Metrics(viewCounts, cloneCounts, forks, watchers, stars, pullRequests)))
  }

  /** The totals the aggregate query asks for. */
  datatype Aggregates = Aggregates(forks: int, watchers: int, stargazers: int, pullRequests: int)

  function Total(n: int): Json
  {
    Obj(map["totalCount" := Num(n)])
  }

  /** The `repository` object of the aggregate query's response. */
  function RepositoryJson(a: Aggregates): Json
  {
    Obj(map[
      "forks" := Total(a.forks),
      "watchers" := Total(a.watchers),
      "stargazers" := Total(a.stargazers),
      "pullRequests" := Total(a.pullRequests)])
  }

  /** The aggregate query's response body, `{"data": {"repository": {...}}}`. */
  function AggregatesJson(a: Aggregates): Json
  {
    Obj(map["data" := Obj(map["repository" := RepositoryJson(a)])])
  }

  /** `record` is a dict whose `count` and `uniques` are the ints `count` and `uniques`. */
  predicate HasCounts(record: Json, count: int, uniques: int)
  {
    && record.Obj?
    && "count" in record.fields && record.fields["count"] == Num(count)
    && "uniques" in record.fields && record.fields["uniques"] == Num(uniques)
  }

  lemma CountsOfRecord(record: Json, count: int, uniques: int)
    requires HasCounts(record, count, uniques)
    ensures CountsOf(record) == Ok(CountPair(DecimalString(count), DecimalString(uniques)))
  {
  }

  lemma TotalsOfRepository(a: Aggregates)
    ensures FormatTotal(RepositoryJson(a), "forks") == Ok(DecimalString(a.forks))
    ensures FormatTotal(RepositoryJson(a), "watchers") == Ok(DecimalString(a.watchers))
    ensures FormatTotal(RepositoryJson(a), "stargazers") == Ok(DecimalString(a.stargazers))
    ensures FormatTotal(RepositoryJson(a), "pullRequests") == Ok(DecimalString(a.pullRequests))
  {
  }

  /** With well-shaped inputs the document holds each count rendered by `str`. */
  lemma BuildOutputRenders(
    id: string, date: string, repo: string,
    clones: Json, cloneCount: int, cloneUniques: int,
    views: Json, viewCount: int, viewUniques: int,
    a: Aggregates)
    requires HasCounts(clones, cloneCount, cloneUniques)
    requires HasCounts(views, viewCount, viewUniques)
    ensures BuildOutput(id, date, repo, clones, views, AggregatesJson(a))
      == Ok(Document(id, Category, date, repo, Metrics(
           CountPair(DecimalString(viewCount), DecimalString(viewUniques)),
           CountPair(DecimalString(cloneCount), DecimalString(cloneUniques)),
           DecimalString(a.forks), DecimalString(a.watchers),
           DecimalString(a.stargazers), DecimalString(a.pullRequests))))
  {
    CountsOfRecord(views, viewCount, viewUniques);
    CountsOfRecord(clones, cloneCount, cloneUniques);
    TotalsOfRepository(a);
  }

  /**
   * With well-shaped inputs a document is always produced: the id, date and
   * repo are copied, the category is fixed, and every count string reads back
   * as the integer it was rendered from.
   */
  lemma BuildOutputCarriesCounts(
    id: string, date: string, repo: string,
    clones: Json, cloneCount: int, cloneUniques: int,
    views: Json, viewCount: int, viewUniques: int,
    a: Aggregates)
    requires HasCounts(clones, cloneCount, cloneUniques)
    requires HasCounts(views, viewCount, viewUniques)
    ensures var r := BuildOutput(id, date, repo, clones, views, AggregatesJson(a));
      && r.Ok?
      && r.value.id == id && r.value.category == "GitHub Repo"
      && r.value.date == date && r.value.repo == repo
      && ParseDecimal(r.value.metrics.views.count) == Some(viewCount)
      && ParseDecimal(r.value.metrics.views.unique) == Some(viewUniques)
      && ParseDecimal(r.value.metrics.clones.count) == Some(cloneCount)
      && ParseDecimal(r.value.metrics.clones.unique) == Some(cloneUniques)
      && ParseDecimal(r.value.metrics.forks) == Some(a.forks)
      && ParseDecimal(r.value.metrics.watchers) == Some(a.watchers)
      && ParseDecimal(r.value.metrics.stars) == Some(a.stargazers)
      && ParseDecimal(r.value.metrics.pullRequests) == Some(a.pullRequests)
  {
    BuildOutputRenders(id, date, repo, clones, cloneCount, cloneUniques, views, viewCount, viewUniques, a);
    DecimalRoundTrip(viewCount);
    DecimalRoundTrip(viewUniques);
    DecimalRoundTrip(cloneCount);
    DecimalRoundTrip(cloneUniques);
    DecimalRoundTrip(a.forks);
    DecimalRoundTrip(a.watchers);
    DecimalRoundTrip(a.stargazers);
    DecimalRoundTrip(a.pullRequests);
  }

  /** The worked example: totals 3/10/55/2, views 7/4, clones 1/1. */
  lemma BuildOutputExample()
    ensures BuildOutput("id-0", "2023-05-01", "demo",
      Obj(map["timestamp" := Str("2023-05-01T00:00:00Z"), "count" := Num(1), "uniques" := Num(1)]),
      Obj(map["timestamp" := Str("2023-05-01T00:00:00Z"), "count" := Num(7), "uniques" := Num(4)]),
      AggregatesJson(Aggregates(3, 10, 55, 2)))
      == Ok(Document("id-0", "GitHub Repo", "2023-05-01", "demo",
           Metrics(CountPair("7", "4"), CountPair("1", "1"), "3", "10", "55", "2")))
  {
    var clones := Obj(map["timestamp" := Str("2023-05-01T00:00:00Z"), "count" := Num(1), "uniques" := Num(1)]);
    var views := Obj(map["timestamp" := Str("2023-05-01T00:00:00Z"), "count" := Num(7), "uniques" := Num(4)]);
    BuildOutputRenders("id-0", "2023-05-01", "demo", clones, 1, 1, views, 7, 4, Aggregates(3, 10, 55, 2));
    assert DecimalString(55) == "55" by {
      assert NatDigits(5) == "5";
    }
    assert DecimalString(10) == "10" by {
      assert NatDigits(1) == "1";
    }
  }

  /** The four connections whose totals the document needs. */
  predicate IsConnection(name: string)
  {
    name == "forks" || name == "watchers" || name == "stargazers" || name == "pullRequests"
  }

  /** `query["data"]["repository"]`, the first two lookups `_build_output` makes. */
  function RepositoryOf(query: Json): Result<Json, PyError>
  {
    var data :- Subscript(query, "data");
    Subscript(data, "repository")
  }

  /**
   * No document without the aggregate response. Whatever the query body, a
   * failed lookup of `data` or `data.repository` is the error `_build_output`
   * raises; it comes before the traffic records are read. A repository
   * missing one of the four totals raises too.
   * None of these defaults to zero.
   */
  lemma BuildOutputRequiresAggregates(
    id: string, date: string, repo: string, clones: Json, views: Json,
    query: Json, connection: string)
    requires IsConnection(connection)
    ensures RepositoryOf(query).Err? ==>
      BuildOutput(id, date, repo, clones, views, query) == Err(RepositoryOf(query).error)
    ensures query == Null ==> BuildOutput(id, date, repo, clones, views, query) == Err(TypeError)
    ensures query.Obj? && "data" !in query.fields ==>
      BuildOutput(id, date, repo, clones, views, query) == Err(KeyError("data"))
    ensures (RepositoryOf(query).Ok? && FormatTotal(RepositoryOf(query).value, connection).Err?) ==>
      BuildOutput(id, date, repo, clones, views, query).Err?
  {
  }

  /** A document is produced exactly when every lookup `_build_output` makes succeeds. */
  lemma BuildOutputSucceedsExactly(
    id: string, date: string, repo: string, clones: Json, views: Json, query: Json)
    ensures BuildOutput(id, date, repo, clones, views, query).Ok? <==>
      && RepositoryOf(query).Ok?
      && CountsOf(views).Ok? && CountsOf(clones).Ok?
      && FormatTotal(RepositoryOf(query).value, "forks").Ok?
      && FormatTotal(RepositoryOf(query).value, "watchers").Ok?
      && FormatTotal(RepositoryOf(query).value, "stargazers").Ok?
      && FormatTotal(RepositoryOf(query).value, "pullRequests").Ok?
  {
  }

  /** A `data` object without `repository` raises KeyError("repository"), whatever else the body holds. */
  lemma DataWithoutRepositoryRaises(
    id: string, date: string, repo: string, clones: Json, views: Json,
    other: map<string, Json>, fields: map<string, Json>)
    requires "repository" !in fields
    ensures BuildOutput(id, date, repo, clones, views, Obj(other["data" := Obj(fields)])) == Err(KeyError("repository"))
  {
  }

  /** `data: null` raises TypeError at `None["repository"]`. */
  lemma NullDataRaises(
    id: string, date: string, repo: string, clones: Json, views: Json, other: map<string, Json>)
    ensures BuildOutput(id, date, repo, clones, views, Obj(other["data" := Null])) == Err(TypeError)
  {
  }

  /**
   * `data.repository: null`, the endpoint's answer for an unknown repository:
   * the traffic records are read first, then `None["forks"]` raises TypeError.
   */
  lemma NullRepositoryRaises(
    id: string, date: string, repo: string, clones: Json, views: Json,
    other: map<string, Json>, fields: map<string, Json>)
    requires CountsOf(views).Ok? && CountsOf(clones).Ok?
    ensures BuildOutput(id, date, repo, clones, views, Obj(other["data" := Obj(fields["repository" := Null])])) == Err(TypeError)
  {
  }

  /** The stored document with the output schema's key names. */
  function CountPairJson(p: CountPair): Json
  {
    Obj(map["count" := Str(p.count), "unique" := Str(p.unique)])
  }

  function MetricsJson(m: Metrics): Json
  {
    Obj(map[
      "views" := CountPairJson(m.views),
      "clones" := CountPairJson(m.clones),
      "forks" := Str(m.forks),
      "watchers" := Str(m.watchers),
      "stars" := Str(m.stars),
      "pull requests" := Str(m.pullRequests)])
  }

  function DocumentJson(d: Document): Json
  {
    Obj(map[
      "id" := Str(d.id),
      "category" := Str(d.category),
      "date" := Str(d.date),
      "repo" := Str(d.repo),
      "metrics" := MetricsJson(d.metrics)])
  }

  /** Reads a string field of a dict. */
  function StrField(v: Json, key: string): Option<string>
  {
    if v.Obj? && key in v.fields && v.fields[key].Str? then Some(v.fields[key].s) else None
  }

  function ReadCountPair(v: Json): Option<CountPair>
  {
    var count := StrField(v, "count");
    var unique := StrField(v, "unique");
    if count.Some? && unique.Some? then Some(CountPair(count.value, unique.value)) else None
  }

  function ReadMetrics(m: Json): Option<Metrics>
  {
    if m.Obj? && "views" in m.fields && "clones" in m.fields then
      var views := ReadCountPair(m.fields["views"]);
      var clones := ReadCountPair(m.fields["clones"]);
      var forks := StrField(m, "forks");
      var watchers := StrField(m, "watchers");
      var stars := StrField(m, "stars");
      var pullRequests := StrField(m, "pull requests");
      if && views.Some? && clones.Some?
         && forks.Some? && watchers.Some? && stars.Some? && pullRequests.Some?
      then
        Some(Metrics(views.value, clones.value, forks.value, watchers.value, stars.value, pullRequests.value))
      else None
    else None
  }

  /** Reads a stored document back from the output schema. */
  function ReadDocument(j: Json): Option<Document>
  {
    if j.Obj? && "metrics" in j.fields then
      var id := StrField(j, "id");
      var category := StrField(j, "category");
      var date := StrField(j, "date");
      var repo := StrField(j, "repo");
      var metrics := ReadMetrics(j.fields["metrics"]);
      if id.Some? && category.Some? && date.Some? && repo.Some? && metrics.Some? then
        Some(Document(id.value, category.value, date.value, repo.value, metrics.value))
      else None
    else None
  }

  lemma CountPairJsonRoundTrip(p: CountPair)
    ensures ReadCountPair(CountPairJson(p)) == Some(p)
  {
  }

  lemma MetricsJsonRoundTrip(m: Metrics)
    ensures ReadMetrics(MetricsJson(m)) == Some(m)
  {
    CountPairJsonRoundTrip(m.views);
    CountPairJsonRoundTrip(m.clones);
  }

  /** The output schema holds every field of the document, each count as a string, under its fixed key. */
  lemma DocumentJsonRoundTrip(d: Document)
    ensures ReadDocument(DocumentJson(d)) == Some(d)
  {
    MetricsJsonRoundTrip(d.metrics);
  }
}
