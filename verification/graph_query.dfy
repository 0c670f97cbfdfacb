/**
 * The aggregate-count query (`Repo._v4_query`): the repository's url slug and
 * owner spliced, unescaped, into a fixed GraphQL selection.
 */
module GraphQuery {
  import opened Wrappers

  const Head := "{repository(name: \""
  const Middle := "\", owner: \""
  const Tail := "\")"

  /**
   * The selection string exactly as the source's backslash-continued literal
   * produces it: each continuation drops the line break but keeps the next
   * line's indentation.
   */
  const Selection :=
    "{ "
    + "            forks { "
    + "                totalCount "
    + "            }"
    + "            watchers {"
    + "                totalCount"
    + "            }"
    + "            stargazers {"
    + "                totalCount"
    + "            }"
    + "            pullRequests{"
    + "                totalCount"
    + "            }"
    + "        }"
    + "        }"

  /** The `repository` half of the query: the call with its two quoted arguments. */
  function RepositoryCall(url: string, owner: string): string
  {
    Head + url + Middle + owner + Tail
  }

  function V4Query(url: string, owner: string): string
  {
    RepositoryCall(url, owner) + Selection
  }

  /** Splits `s` before its first double quote (or at its end when it has none). */
  function SplitAtQuote(s: string): (r: (string, string))
    ensures r.0 + r.1 == s
    ensures '"' !in r.0
    ensures r.1 == [] || r.1[0] == '"'
  {
    if |s| == 0 then ("", "")
    else if s[0] == '"' then ("", s)
    else
      var (before, after) := SplitAtQuote(s[1..]);
      ([s[0]] + before, after)
  }

  /**
   * Reads `{repository(name: "<url>", owner: "<owner>")` off the front of `q`,
   * returning the url, the owner and what follows the call.
   */
  function ParseRepositoryCall(q: string): Option<(string, string, string)>
  {
    if |q| >= |Head| && q[..|Head|] == Head then
      var (url, afterUrl) := SplitAtQuote(q[|Head|..]);
      if |afterUrl| >= |Middle| && afterUrl[..|Middle|] == Middle then
        var (owner, afterOwner) := SplitAtQuote(afterUrl[|Middle|..]);
        if |afterOwner| >= |Tail| && afterOwner[..|Tail|] == Tail then
          Some((url, owner, afterOwner[|Tail|..]))
        else None
      else None
    else None
  }

  /** Recovers the url slug and owner from a query, when they contain no double quote. */
  function ParseV4Query(q: string): Option<(string, string)>
  {
    match ParseRepositoryCall(q)
    case Some((url, owner, rest)) => if rest == Selection then Some((url, owner)) else None
    case None => None
  }

  lemma {:induction false} SplitAtQuoteOf(prefix: string, rest: string)
    requires '"' !in prefix
    requires |rest| > 0 && rest[0] == '"'
    ensures SplitAtQuote(prefix + rest) == (prefix, rest)
  {
    if |prefix| > 0 {
      assert (prefix + rest)[0] == prefix[0] && prefix[0] in prefix;
      assert (prefix + rest)[1..] == prefix[1..] + rest;
      SplitAtQuoteOf(prefix[1..], rest);
      assert [prefix[0]] + prefix[1..] == prefix;
    } else {
      assert prefix + rest == rest;
    }
  }

  lemma ParseRepositoryCallRoundTrip(url: string, owner: string, rest: string)
    requires '"' !in url && '"' !in owner
    ensures ParseRepositoryCall(RepositoryCall(url, owner) + rest) == Some((url, owner, rest))
  {
    var q := RepositoryCall(url, owner) + rest;
    var afterUrl := Middle + owner + Tail + rest;
    var afterOwner := Tail + rest;
    assert q == Head + (url + afterUrl);
    assert q[..|Head|] == Head;
    assert q[|Head|..] == url + afterUrl;
    SplitAtQuoteOf(url, afterUrl);
    assert afterUrl == Middle + (owner + afterOwner);
    assert afterUrl[..|Middle|] == Middle;
    assert afterUrl[|Middle|..] == owner + afterOwner;
    SplitAtQuoteOf(owner, afterOwner);
    assert afterOwner[..|Tail|] == Tail;
    assert afterOwner[|Tail|..] == rest;
  }

  /** A query built from quote-free inputs determines both of them. */
  lemma V4QueryRoundTrip(url: string, owner: string)
    requires '"' !in url && '"' !in owner
    ensures ParseV4Query(V4Query(url, owner)) == Some((url, owner))
  {
    ParseRepositoryCallRoundTrip(url, owner, Selection);
  }

  /**
   * Nothing is escaped: moving the text `", owner: "` from the end of the url
   * to the start of the owner gives the same query for different inputs.
   */
  lemma V4QueryUnescaped(url: string, owner: string, x: string)
    ensures V4Query(url + Middle + x, owner) == V4Query(url, x + Middle + owner)
    ensures (url + Middle + x, owner) != (url, x + Middle + owner)
  {
    assert RepositoryCall(url + Middle + x, owner) == RepositoryCall(url, x + Middle + owner);
    assert |url + Middle + x| != |url|;
  }
}
