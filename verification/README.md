# GitHub traffic tracker — a Dafny model of its metric reconciliation

The tracker is a daily job. For each configured repository it fetches the
views and clones traffic series and the aggregate counts: forks, watchers,
stargazers and pull requests. It picks yesterday's entry from each traffic
series and assembles one document, with every count written as a decimal
string. It also has a helper that lists an account's repositories page by
page.

This project models the pure logic of `github_tracker/traffic_tracker.py`.
The clock (`datetime.date.today()`), the fresh identifier (`uuid.uuid4()`)
and every HTTP response become parameters. Decoded response bodies are
values of a small `Json` datatype: None, bool, int, str, list and dict. The
Python exceptions the code can raise become `Err(KeyError(key))` or
`Err(TypeError)`.

| file | module | models |
|---|---|---|
| `wrappers.dfy` | `Wrappers` | `Option` and `Result` |
| `decimal.dfy` | `Decimal` | `str(n)` and `"%0Nd" % n` for ints, with the parser that inverts them |
| `json_values.dfy` | `JsonValues` | decoded JSON values; `v[key]`, `v[:n]` and `"{}".format(v)` |
| `calendar.dfy` | `Calendar` | `get_yesterdays_date`: Gregorian predecessor, day ordinal, `str(date)` |
| `traffic.dfy` | `Traffic` | `_get_data` and `_validate_date` |
| `output.dfy` | `Output` | `_build_output` and the output document's JSON shape |
| `graph_query.dfy` | `GraphQuery` | `_v4_query` |
| `discovery.dfy` | `Discovery` | `UserOrOrg.repos`, over a page oracle with a page budget |
| `tracker.dfy` | `Tracker` | `Repo.metrics`: the three parts composed |

Behaviour the model follows where the code departs from its comments:

- **Empty series.** The comment at traffic_tracker.py:178-179 promises zeros
  when no entry is on the target date. When the series is empty, the loop
  body never runs, so `data` still holds the whole response and that is what
  comes back (`Traffic.EmptySeriesReturnsResponse`). The document then
  reports the response's window totals (`Tracker.EmptySeriesReportsTotals`).
  A non-empty series with no match does give the zero record.
- **Missing data.** The comment at traffic_tracker.py:179 says "if no data
  is available for target date returns 0 in all fields". In the code, `_get_data` returns None
  on any status other than 200, and `None[metric]` raises TypeError. The
  model raises as well (`Traffic.UnavailableDataRaises`).
- **Status check.** `status_code == 404 or 403 or 400` is always true, so in
  `repos()` every status other than 200 returns an empty dict. Rows collected
  from earlier pages are dropped.
- **Date format.** `get_yesterdays_date` says it returns `DD/MM/YYYY`. It
  returns `str(date)`, which is `YYYY-MM-DD`.
- **Query string.** `_v4_query` splices the url slug and owner in with no
  escaping. The selection text keeps the indentation of the source's
  backslash-continued lines.

## Model

| member | source | states |
|---|---|---|
| `Decimal.DecimalString` | github_tracker/traffic_tracker.py:247-261 | `"{}".format(n)` of an int; its behaviour is stated by `Decimal.DecimalRoundTrip` and `Decimal.DecimalInjective` |
| `JsonValues.Subscript` | github_tracker/traffic_tracker.py:239-261 | Python `v[key]`: a dict with the key gives its value, a dict without it raises KeyError, None or any other value raises TypeError; stated per call site by `Traffic.MissingSeriesRaises`, `Traffic.UnavailableDataRaises` and `Output.BuildOutputRequiresAggregates` |
| `JsonValues.SliceTo` | github_tracker/traffic_tracker.py:183 | `key["timestamp"][:10]` on a str or list; other values raise TypeError; stated through `Traffic.DayMatches` |
| `JsonValues.Format` | github_tracker/traffic_tracker.py:247-261 | `"{}".format(v)` for None, bool, int and str; stated through `Output.BuildOutputRenders` |
| `Traffic.Received` | github_tracker/traffic_tracker.py:165-234 | `_get_data` (lines 165-175) and `_query` (lines 224-234): the decoded body on status 200, otherwise None, since the non-200 branches only log; stated by `Traffic.UnavailableDataRaises` and `Tracker.FailedRequestGivesNoDocument` |
| `Traffic.Scan` | github_tracker/traffic_tracker.py:182-188 | the `for key in data[metric]` loop with its reassignment of `data`; characterised by `Traffic.ScanOutcome` |
| `Traffic.ValidateDate` | github_tracker/traffic_tracker.py:177-188 | `_validate_date`; stated by `Traffic.SelectsFirstDayOnTarget`, `Traffic.NoDayOnTargetGivesZeros`, `Traffic.EmptySeriesReturnsResponse`, `Traffic.UnavailableDataRaises` and `Traffic.MissingSeriesRaises` |
| `Output.BuildOutput` | github_tracker/traffic_tracker.py:236-265 | `_build_output` with the UUID as a parameter; stated by `Output.BuildOutputRenders`, `Output.BuildOutputCarriesCounts` and `Output.BuildOutputRequiresAggregates` |
| `GraphQuery.V4Query` | github_tracker/traffic_tracker.py:202-222 | `_v4_query`; stated by `GraphQuery.V4QueryRoundTrip` and `GraphQuery.V4QueryUnescaped` |
| `Discovery.FetchFrom` | github_tracker/traffic_tracker.py:86-104 | the `while True` loop of `repos()` from a given page and partial result; stated by `Discovery.FetchFromIsIdentity` and the `Discovery.Repos*` lemmas |
| `Discovery.Repos` | github_tracker/traffic_tracker.py:80-106 | `repos()`; stated by `Discovery.ReposStopsAtShortPage`, `Discovery.ReposDiscardsOnFailure`, `Discovery.ReposNeedsAShortPage` and `Discovery.ReposIsIdentity` |
| `Tracker.RepoMetrics` | github_tracker/traffic_tracker.py:157-163 | `metrics()`: clones, then views, then the query, composed into one document; stated by `Tracker.ReportsYesterday`, `Tracker.EmptySeriesReportsTotals` and `Tracker.FailedRequestGivesNoDocument` |
| `Decimal.DecimalRoundTrip` | github_tracker/traffic_tracker.py:247-261 | every count `"{}".format(n)` writes reads back as the same int, so the string form loses nothing |
| `Decimal.DecimalInjective` | github_tracker/traffic_tracker.py:247-261 | different counts render as different strings |
| `Decimal.NatDigits` | github_tracker/traffic_tracker.py:247-248 | `str(n)` of a non-negative int is a non-empty run of decimal digits with no leading zero (except "0" itself) |
| `Calendar.Predecessor` | github_tracker/traffic_tracker.py:276-277 | the day before any valid date after 0001-01-01 is a valid date: the month length and leap year are respected |
| `Calendar.PredecessorIsDayBefore` | github_tracker/traffic_tracker.py:277 | `today - timedelta(days=1)` is the date whose day ordinal (`date.toordinal()`) is one less than today's |
| `Calendar.DaysBeforeNextYear` | github_tracker/traffic_tracker.py:277 | the ordinal of January 1st advances by 365 days, or by 366 after a leap year |
| `Calendar.PredecessorAtBoundaries` | github_tracker/traffic_tracker.py:277 | the day before 1 March is 29 February only in a leap year; the day before the 1st is the last day of the previous month; the day before 1 January is 31 December of the previous year; and on the ordinal scale each of those last days is exactly one day before the 1st that follows it |
| `Calendar.LeapDayOnlyInLeapYears` | github_tracker/traffic_tracker.py:277 | yesterday is 29 February only in a leap year |
| `Calendar.PredecessorSuccessorInverse` | github_tracker/traffic_tracker.py:277 | stepping back a day and then forward a day gives the same date, and the other way round |
| `Calendar.PredecessorUnique` | github_tracker/traffic_tracker.py:277 | any valid date whose next day is `today` is `Predecessor(today)` |
| `Calendar.ParseIsoRoundTrip` | github_tracker/traffic_tracker.py:277 | `str(date)` is zero-padded `YYYY-MM-DD`, and `fromisoformat` reads it back as the same date |
| `Calendar.YesterdaysDate` | github_tracker/traffic_tracker.py:268-278 | `get_yesterdays_date` returns a 10-character string that parses as yesterday's date |
| `Calendar.YesterdayIsDayBefore` | github_tracker/traffic_tracker.py:268-278 | the returned string names a valid date one ordinal day before today, whose successor is today |
| `Traffic.ScanOutcome` | github_tracker/traffic_tracker.py:182-188 | the loop's result is set by the first entry it does not skip: that entry unchanged if it is on the target date, or the exception raised reading it; if every entry is skipped, the zero record, or the input `data` when the list was empty |
| `Traffic.DayMatches` | github_tracker/traffic_tracker.py:183-184 | a well-formed entry matches exactly when the first ten characters of its timestamp equal the target date |
| `Traffic.SelectsFirstDayOnTarget` | github_tracker/traffic_tracker.py:182-185 | with a well-formed series, the first entry (in received order) whose `timestamp[:10]` is the target date is returned unchanged |
| `Traffic.NoDayOnTargetGivesZeros` | github_tracker/traffic_tracker.py:186-188 | a non-empty series with no entry on the target date gives `{timestamp: target, count: 0, uniques: 0}` |
| `Traffic.EmptySeriesReturnsResponse` | github_tracker/traffic_tracker.py:177-188 | an empty series gives back the whole response object, which is not the zero record the comment promises |
| `Traffic.UnavailableDataRaises` | github_tracker/traffic_tracker.py:165-182 | a response with any status other than 200 leaves None, and selection then raises TypeError instead of defaulting |
| `Traffic.MissingSeriesRaises` | github_tracker/traffic_tracker.py:182 | a response without the `views`/`clones` key raises KeyError for that key |
| `Output.BuildOutputRenders` | github_tracker/traffic_tracker.py:236-265 | with well-shaped inputs the document has category "GitHub Repo", the given id, date and repo, views/clones `count` and `uniques` as `count`/`unique`, and the `forks`, `watchers`, `stargazers`, `pullRequests` totals as `forks`, `watchers`, `stars`, `pullRequests`, each as `str` of the int |
| `Output.BuildOutputCarriesCounts` | github_tracker/traffic_tracker.py:240-261 | with well-shaped inputs a document is produced, and each of its eight count strings parses back to the input count it came from |
| `Output.BuildOutputExample` | github_tracker/traffic_tracker.py:240-263 | totals 3/10/55/2, views 7/4 and clones 1/1 give the strings "3", "10", "55", "2", "7", "4", "1", "1" |
| `Output.BuildOutputRequiresAggregates` | github_tracker/traffic_tracker.py:239-261 | for every query body, a failed `query["data"]["repository"]` lookup is exactly the error raised (None gives TypeError, no `data` gives KeyError) and it comes before the traffic records are read; whatever the traffic records, a repository that is not a dict, lacks one of `forks`, `watchers`, `stargazers`, `pullRequests`, or whose connection is not a dict or lacks `totalCount`, raises (a list or dict `totalCount` errs in the model only, see `JsonValues.Format` under Left out) |
| `Output.BuildOutputSucceedsExactly` | github_tracker/traffic_tracker.py:236-265 | a document is produced if and only if `data.repository`, both traffic records' `count` and `uniques`, and all four connections' `totalCount` can be read and rendered |
| `Output.DataWithoutRepositoryRaises` | github_tracker/traffic_tracker.py:239 | a `data` object without `repository` raises KeyError("repository"), whatever other keys the body or `data` hold |
| `Output.NullDataRaises` | github_tracker/traffic_tracker.py:239 | `data: null` raises TypeError |
| `Output.NullRepositoryRaises` | github_tracker/traffic_tracker.py:239-255 | `data.repository: null` (an unknown repository) raises TypeError once the traffic records have been read, whatever other keys the body holds |
| `Output.CountsOfRecord` | github_tracker/traffic_tracker.py:247-252 | a record with int `count` and `uniques` yields the pair of their decimal strings |
| `Output.TotalsOfRepository` | github_tracker/traffic_tracker.py:254-261 | each connection's `totalCount` is rendered as its decimal string |
| `Output.DocumentJsonRoundTrip` | github_tracker/traffic_tracker.py:240-263 | the stored JSON holds every document field under its fixed key (`unique`, `stars`, `pull requests`, ...) and can be read back to the same document |
| `GraphQuery.V4QueryRoundTrip` | github_tracker/traffic_tracker.py:202-222 | the query is `{repository(name: "<url>", owner: "<owner>")` followed by the fixed selection; for quote-free inputs the url and owner are recovered exactly |
| `GraphQuery.V4QueryUnescaped` | github_tracker/traffic_tracker.py:204-205 | nothing is escaped: two different (url, owner) pairs can produce the same query |
| `Discovery.ReposStopsAtShortPage` | github_tracker/traffic_tracker.py:83-97 | if pages 1..k-1 are full and page k is the first shorter than 100, the result's keys are exactly the names on pages 1..k |
| `Discovery.ReposDiscardsOnFailure` | github_tracker/traffic_tracker.py:99-104 | a status other than 200 on a page reached before any short page gives an empty map, dropping names already collected |
| `Discovery.ReposNeedsAShortPage` | github_tracker/traffic_tracker.py:86-97 | while every page comes back full the loop gives no answer within the page budget |
| `Discovery.ReposExample` | github_tracker/traffic_tracker.py:83-106 | two full pages and a page of 37 distinct names give 237 repositories, whatever the page budget beyond three |
| `Discovery.ReposFailingExample` | github_tracker/traffic_tracker.py:99-104 | the same listing with a failed second page gives an empty map, not the 100 names of page 1 |
| `Discovery.RecordSpec` | github_tracker/traffic_tracker.py:91-92 | after a page, the keys are the earlier keys plus the page's names, each name maps to itself, and other entries are unchanged |
| `Discovery.RecordKeepsIdentity` | github_tracker/traffic_tracker.py:91-92 | recording a page into a name-to-itself map gives a name-to-itself map |
| `Discovery.FetchFromIsIdentity` | github_tracker/traffic_tracker.py:86-104 | starting from a name-to-itself map, any map the loop returns maps every name to itself |
| `Discovery.ReposIsIdentity` | github_tracker/traffic_tracker.py:80-106 | `repos()` maps every repository name to itself |
| `Tracker.ReportsYesterday` | github_tracker/traffic_tracker.py:140-163 | when all requests succeed and both series hold yesterday, the document is dated yesterday and carries that day's views and clones counts and uniques, and the forks, watchers, stargazers and pull request totals, each reading back as the int it came from |
| `Tracker.EmptySeriesReportsTotals` | github_tracker/traffic_tracker.py:157-163 | with empty series the document's views and clones `count` and `unique` read back as the responses' window totals `count` and `uniques`, not the zero record's values |
| `Tracker.FailedRequestGivesNoDocument` | github_tracker/traffic_tracker.py:157-163 | if any of the three requests fails, no document is produced |

## Left out

- `Database` (traffic_tracker.py:34-70) wraps the Cosmos DB client, which is foreign code. Upload is not modelled.
- `main` in `github_tracker/__init__.py` is left out. It reads the environment, builds the objects and uploads each document. It has no logic beyond the composition in `Tracker.RepoMetrics`.
- HTTP requests, headers, URL building, `json.loads` and logging are left out. Responses enter the model as a status code and an already-decoded body.
- `uuid.uuid4()` and `datetime.date.today()` are nondeterministic, so both are parameters. `metrics()` reads the clock three times; the model uses one `today` for all three, so a run that crosses midnight is not modelled.
- `Calendar.YesterdaysDate`: requires `today` after 0001-01-01 instead of modelling Python's OverflowError at `date.min`. Years after 9999 cannot occur in Python's `date`.
- `JsonValues.Format`: `str()` of a list or dict gives `Err(Unrendered)`. Python would print the value's repr, which is not modelled. The platform never sends a container as a count.
- `JsonValues.SliceTo`: slicing a dict raises TypeError before Python 3.12 and KeyError from 3.12 on. The model reports TypeError; either way it is an error.
- JSON floats are not modelled: numbers are ints.
- `Discovery.FetchFrom`: each page arrives as a list of name strings. A listing element without `name`, or a body that is not a list, is not modelled. The `fuel` page budget stands in for the source's unbounded `while True`: `Unfinished` means every page up to the budget was full.
- `Discovery.Repos`: the result is a Dafny `map`, which has no order, so the insertion order of the Python dict `repos()` builds is not kept. `main` in `github_tracker/__init__.py` uploads in the order of `repos.items()`, but the line there that would fill `repos` from `repos()` is commented out.
- `_query` (traffic_tracker.py:224-234) is modelled only by its result, via `Traffic.Received`: the decoded body on status 200, otherwise None.
- Uniqueness of document ids is not modelled: ids are parameters, so uniqueness is up to whatever generates them.
