/**
 * Repository discovery (`UserOrOrg.repos`): page through an account's
 * repository listing, 100 names a page, collecting each name as a key mapped
 * to itself.
 */
module Discovery {
  import opened Decimal

  /** One response of the listing endpoint: its status and, on success, the repository names. */
  datatype PageResponse = PageResponse(status: int, names: seq<string>)

  const PerPage := 100

  /** What the loop returns: the collected map, or no answer within the page budget. */
  datatype Listing = Listed(repos: map<string, string>) | Unfinished

  /** `for r in repos: results.update({r["name"]: r["name"]})` */
  function Record(results: map<string, string>, names: seq<string>): map<string, string>
    decreases |names|
  {
    if |names| == 0 then results
    else Record(results[names[0] := names[0]], names[1..])
  }

  /**
   * Recording a page adds its names as keys, each mapped to itself, and keeps
   * every other entry as it was.
   */
  lemma {:induction false} RecordSpec(results: map<string, string>, names: seq<string>)
    ensures Record(results, names).Keys == results.Keys + set n | n in names
    ensures forall n :: n in names ==> Record(results, names)[n] == n
    ensures forall k :: k in results && k !in names ==> Record(results, names)[k] == results[k]
    decreases |names|
  {
    if |names| > 0 {
      var results' := results[names[0] := names[0]];
      var rest := names[1..];
      RecordSpec(results', rest);
      assert names == [names[0]] + rest;
      assert (set n | n in names) == {names[0]} + set n | n in rest;
    }
  }

  /**
   * The `while True` loop from page `page` on, with `results` collected so far.
   * `fetch` answers the request for a page number; `fuel` bounds the number of
   * requests, since the source loops for as long as pages come back full.
   */
  function FetchFrom(fetch: nat -> PageResponse, page: nat, results: map<string, string>, fuel: nat): Listing
    decreases fuel
  {
    if fuel == 0 then Unfinished
    else
      var response := fetch(page);
      if response.status == 200 then
        var results' := Record(results, response.names);
        if |response.names| < PerPage then Listed(results')
        else FetchFrom(fetch, page + 1, results', fuel - 1)
      else
        // `status_code == 404 or 403 or 400` is always truthy: every failure ends here
        Listed(map[])
  }

  /** `repos()`, asking for at most `fuel` pages, starting at page 1. */
  function Repos(fetch: nat -> PageResponse, fuel: nat): Listing
  {
    FetchFrom(fetch, 1, map[], fuel)
  }

  lemma RecordKeepsIdentity(results: map<string, string>, names: seq<string>)
    requires forall k :: k in results ==> results[k] == k
    ensures forall k :: k in Record(results, names) ==> Record(results, names)[k] == k
  {
    RecordSpec(results, names);
    var r := Record(results, names);
    forall k | k in r
      ensures r[k] == k
    {
      if k !in names {
        assert k in results;
      }
    }
  }

  /** Every name-to-itself map stays one as pages are recorded. */
  lemma {:induction false} FetchFromIsIdentity(fetch: nat -> PageResponse, page: nat, results: map<string, string>, fuel: nat)
    requires forall k :: k in results ==> results[k] == k
    ensures var r := FetchFrom(fetch, page, results, fuel);
      r.Listed? ==> forall k :: k in r.repos ==> r.repos[k] == k
    decreases fuel
  {
    if fuel > 0 && fetch(page).status == 200 {
      RecordKeepsIdentity(results, fetch(page).names);
      if |fetch(page).names| >= PerPage {
        FetchFromIsIdentity(fetch, page + 1, Record(results, fetch(page).names), fuel - 1);
      }
    }
  }

  /** `repos()` maps every name it returns to itself. */
  lemma ReposIsIdentity(fetch: nat -> PageResponse, fuel: nat)
    ensures var r := Repos(fetch, fuel);
      r.Listed? ==> forall k :: k in r.repos ==> r.repos[k] == k
  {
    FetchFromIsIdentity(fetch, 1, map[], fuel);
  }

  /** Every name listed on pages 1 through `k`. */
  ghost function NamesThrough(fetch: nat -> PageResponse, k: nat): set<string>
  {
    if k == 0 then {} else NamesThrough(fetch, k - 1) + set n | n in fetch(k).names
  }

  function IdentityMap(keys: set<string>): map<string, string>
  {
    map k | k in keys :: k
  }

  /** Pages 1 through `k - 1` all succeeded and were full. */
  ghost predicate FullPagesBefore(fetch: nat -> PageResponse, k: nat)
  {
    forall j :: 1 <= j < k ==> fetch(j).status == 200 && |fetch(j).names| >= PerPage
  }

  lemma RecordExtends(fetch: nat -> PageResponse, k: nat)
    requires k >= 1
    ensures Record(IdentityMap(NamesThrough(fetch, k - 1)), fetch(k).names) == IdentityMap(NamesThrough(fetch, k))
  {
    RecordSpec(IdentityMap(NamesThrough(fetch, k - 1)), fetch(k).names);
    var r := Record(IdentityMap(NamesThrough(fetch, k - 1)), fetch(k).names);
    assert r.Keys == NamesThrough(fetch, k);
  }

  /** One loop iteration on a full page: record its names and ask for the next page. */
  lemma FetchFromFullPage(fetch: nat -> PageResponse, page: nat, results: map<string, string>, fuel: nat)
    requires fuel > 0
    requires fetch(page).status == 200 && |fetch(page).names| >= PerPage
    ensures FetchFrom(fetch, page, results, fuel) == FetchFrom(fetch, page + 1, Record(results, fetch(page).names), fuel - 1)
  {
  }

  lemma {:induction false} FetchFromStopsAtShortPage(
    fetch: nat -> PageResponse, page: nat, results: map<string, string>, k: nat, fuel: nat)
    requires 1 <= page <= k && k - page < fuel
    requires results == IdentityMap(NamesThrough(fetch, page - 1))
    requires FullPagesBefore(fetch, k)
    requires fetch(k).status == 200 && |fetch(k).names| < PerPage
    ensures FetchFrom(fetch, page, results, fuel) == Listed(IdentityMap(NamesThrough(fetch, k)))
    decreases k - page
  {
    RecordExtends(fetch, page);
    if page < k {
      assert fetch(page).status == 200 && |fetch(page).names| >= PerPage;
      FetchFromFullPage(fetch, page, results, fuel);
      FetchFromStopsAtShortPage(fetch, page + 1, Record(results, fetch(page).names), k, fuel - 1);
    }
  }

  /**
   * When page `k` is the first that is not full and every page succeeded, the
   * result maps exactly the names on pages 1..k, each to itself.
   */
  lemma ReposStopsAtShortPage(fetch: nat -> PageResponse, k: nat, fuel: nat)
    requires 1 <= k <= fuel
    requires FullPagesBefore(fetch, k)
    requires fetch(k).status == 200 && |fetch(k).names| < PerPage
    ensures Repos(fetch, fuel) == Listed(IdentityMap(NamesThrough(fetch, k)))
  {
    assert IdentityMap(NamesThrough(fetch, 0)) == map[];
    FetchFromStopsAtShortPage(fetch, 1, map[], k, fuel);
  }

  lemma {:induction false} FetchFromFailure(fetch: nat -> PageResponse, page: nat, k: nat, results: map<string, string>, fuel: nat)
    requires 1 <= page <= k && k - page < fuel
    requires FullPagesBefore(fetch, k)
    requires fetch(k).status != 200
    ensures FetchFrom(fetch, page, results, fuel) == Listed(map[])
    decreases k - page
  {
    if page < k {
      assert fetch(page).status == 200 && |fetch(page).names| >= PerPage;
      FetchFromFullPage(fetch, page, results, fuel);
      FetchFromFailure(fetch, page + 1, k, Record(results, fetch(page).names), fuel - 1);
    }
  }

  /** A failed page, reached before any short page, discards everything collected so far. */
  lemma ReposDiscardsOnFailure(fetch: nat -> PageResponse, k: nat, fuel: nat)
    requires 1 <= k <= fuel
    requires FullPagesBefore(fetch, k)
    requires fetch(k).status != 200
    ensures Repos(fetch, fuel) == Listed(map[])
  {
    FetchFromFailure(fetch, 1, k, map[], fuel);
  }

  lemma {:induction false} FetchFromExhausts(fetch: nat -> PageResponse, page: nat, results: map<string, string>, fuel: nat)
    requires page >= 1
    requires FullPagesBefore(fetch, page + fuel)
    ensures FetchFrom(fetch, page, results, fuel) == Unfinished
    decreases fuel
  {
    if fuel > 0 {
      assert fetch(page).status == 200 && |fetch(page).names| >= PerPage;
      FetchFromFullPage(fetch, page, results, fuel);
      FetchFromExhausts(fetch, page + 1, Record(results, fetch(page).names), fuel - 1);
    }
  }

  /** While every page comes back full the loop has no answer: `fuel` pages are not enough. */
  lemma ReposNeedsAShortPage(fetch: nat -> PageResponse, fuel: nat)
    requires FullPagesBefore(fetch, fuel + 1)
    ensures Repos(fetch, fuel) == Unfinished
  {
    FetchFromExhausts(fetch, 1, map[], fuel);
  }

  /** `count` distinct names, "start" .. "start + count - 1". */
  function Names(start: nat, count: nat): (names: seq<string>)
    ensures |names| == count
  {
    seq(count, i requires 0 <= i < count => DecimalString(start + i))
  }

  /** A listing of 237 repositories: two full pages, then a page of 37. */
  function ExampleListing(page: nat): PageResponse
  {
    if page == 1 || page == 2 then PageResponse(200, Names(100 * (page - 1), 100))
    else if page == 3 then PageResponse(200, Names(200, 37))
    else PageResponse(404, [])
  }

  /** The same listing, except that the request for page 2 fails. */
  function ExampleFailingListing(page: nat): PageResponse
  {
    if page == 2 then PageResponse(500, []) else ExampleListing(page)
  }

  /** The names "lo" .. "hi - 1". */
  function RenderedRange(lo: nat, hi: nat): set<string>
  {
    set i | lo <= i < hi :: DecimalString(i)
  }

  lemma {:induction false} RenderedRangeSize(n: nat)
    ensures |RenderedRange(0, n)| == n
  {
    if n > 0 {
      assert RenderedRange(0, n) == RenderedRange(0, n - 1) + {DecimalString(n - 1)};
      if DecimalString(n - 1) in RenderedRange(0, n - 1) {
        var i :| 0 <= i < n - 1 && DecimalString(i) == DecimalString(n - 1);
        DecimalInjective(i, n - 1);
      }
      RenderedRangeSize(n - 1);
    }
  }

  lemma PageNames(start: nat, count: nat)
    ensures (set n | n in Names(start, count)) == RenderedRange(start, start + count)
  {
    var page := Names(start, count);
    forall x | x in RenderedRange(start, start + count)
      ensures x in page
    {
      var i :| start <= i < start + count && DecimalString(i) == x;
      assert page[i - start] == x;
    }
  }

  lemma RangeSplit(lo: nat, mid: nat, hi: nat)
    requires lo <= mid <= hi
    ensures RenderedRange(lo, hi) == RenderedRange(lo, mid) + RenderedRange(mid, hi)
  {
  }

  lemma ExampleNames()
    ensures NamesThrough(ExampleListing, 3) == RenderedRange(0, 237)
  {
    assert NamesThrough(ExampleListing, 3)
      == (set n | n in Names(0, 100)) + (set n | n in Names(100, 100)) + (set n | n in Names(200, 37));
    PageNames(0, 100);
    PageNames(100, 100);
    PageNames(200, 37);
    RangeSplit(0, 100, 200);
    RangeSplit(0, 200, 237);
  }

  lemma ExampleShapes()
    ensures FullPagesBefore(ExampleListing, 3)
    ensures ExampleListing(3).status == 200 && |ExampleListing(3).names| < PerPage
    ensures FullPagesBefore(ExampleFailingListing, 2)
    ensures ExampleFailingListing(2).status != 200
  {
    forall j | 1 <= j < 3
      ensures ExampleListing(j).status == 200 && |ExampleListing(j).names| >= PerPage
    {
      assert j == 1 || j == 2;
    }
    forall j | 1 <= j < 2
      ensures ExampleFailingListing(j).status == 200 && |ExampleFailingListing(j).names| >= PerPage
    {
      assert j == 1;
    }
  }

  /** Two full pages and a final page of 37 give 237 repositories, however many more pages the budget allows. */
  lemma ReposExample(fuel: nat)
    requires fuel >= 3
    ensures Repos(ExampleListing, fuel).Listed?
    ensures |Repos(ExampleListing, fuel).repos| == 237
  {
    ExampleShapes();
    ReposStopsAtShortPage(ExampleListing, 3, fuel);
    ExampleNames();
    RenderedRangeSize(237);
    var m := IdentityMap(RenderedRange(0, 237));
    assert m.Keys == RenderedRange(0, 237);
    assert |m| == |m.Keys|;
  }

  /** The same listing with a failed page 2 gives no repositories at all. */
  lemma ReposFailingExample(fuel: nat)
    requires fuel >= 2
    ensures Repos(ExampleFailingListing, fuel) == Listed(map[])
  {
    ExampleShapes();
    ReposDiscardsOnFailure(ExampleFailingListing, 2, fuel);
  }
}
