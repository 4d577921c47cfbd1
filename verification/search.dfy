/** `search_links_by_original_url`: a read-only filter of the store by a case-insensitive prefix
    of the long URL. The result maps each matching code to its view; the order in which the
    database returns rows is not modelled. */
module Search {
  import opened Outcomes
  import opened Models
  import opened Schemas
  import opened Urls

  /** `original_url.rstrip("/").lower()`. */
  function Normalize(query: string): (r: string)
    ensures |r| <= |query|
    ensures r == [] || r[|r| - 1] != '/'
  {
    Lower(RStripSlashes(query))
  }

  /** `func.lower(Link.long_url).like(f"{needle}%")`, with the needle taken literally. */
  predicate Matches(l: Link, needle: string)
  {
    needle <= Lower(l.longUrl)
  }

  /** The view of a stored link in a search answer. */
  function SearchView(baseUrl: string, l: Link): LinkInfo
  {
    LinkInfo(ShortUrlFor(baseUrl, l.shortUrl), l.longUrl, l.expiresAt)
  }

  /** The matching links, or `NotFound` when there are none. */
  function SearchLinks(links: map<Code, Link>, baseUrl: string, originalUrl: string): (r: Result<map<Code, LinkInfo>>)
    ensures r.Err? ==> r.error == NotFound
    ensures r.Err? <==> forall c | c in links :: !Matches(links[c], Normalize(originalUrl))
    ensures r.Ok? ==> forall c :: c in r.value <==> c in links && Matches(links[c], Normalize(originalUrl))
    ensures r.Ok? ==> forall c | c in r.value :: r.value[c] == SearchView(baseUrl, links[c])
  {
    var needle := Normalize(originalUrl);
    var found := map c | c in links && Matches(links[c], needle) :: SearchView(baseUrl, links[c]);
    assert forall c | c in links && Matches(links[c], needle) :: c in found.Keys;
    if found.Keys == {} then Err(NotFound) else Ok(found)
  }

  /** Normalising twice is normalising once. */
  lemma NormalizeIdempotent(query: string)
    ensures Normalize(Normalize(query)) == Normalize(query)
  {
    var s := RStripSlashes(query);
    var n := Lower(s);
    assert n == [] || n[|n| - 1] == LowerChar(s[|s| - 1]);
    assert RStripSlashes(n) == n;
    forall i | 0 <= i < |n| ensures Lower(n)[i] == n[i] {
      LowerCharIdempotent(s[i]);
    }
    assert Lower(n) == n;
  }

  /** A trailing slash in the query makes no difference to the normal form. */
  lemma NormalizeIgnoresTrailingSlash(query: string)
    ensures Normalize(query + "/") == Normalize(query)
  {
    var q := query + "/";
    assert q[..|q| - 1] == query;
  }

  /** Searching with the normal form of a query gives the same answer as the query itself,
      so searches are case-insensitive and ignore trailing slashes. */
  lemma SearchByNormalForm(links: map<Code, Link>, baseUrl: string, originalUrl: string)
    ensures SearchLinks(links, baseUrl, Normalize(originalUrl)) == SearchLinks(links, baseUrl, originalUrl)
  {
    NormalizeIdempotent(originalUrl);
  }

  /** Queries that differ only in the case of their letters get the same answer. */
  lemma SearchIgnoresCase(links: map<Code, Link>, baseUrl: string, originalUrl: string)
    ensures SearchLinks(links, baseUrl, Lower(originalUrl)) == SearchLinks(links, baseUrl, originalUrl)
  {
    RStripLowerCommute(originalUrl);
    LowerIdempotent(RStripSlashes(originalUrl));
  }

  /** Adding trailing slashes to the query does not change the answer. */
  lemma SearchIgnoresTrailingSlash(links: map<Code, Link>, baseUrl: string, originalUrl: string)
    ensures SearchLinks(links, baseUrl, originalUrl + "/") == SearchLinks(links, baseUrl, originalUrl)
  {
    NormalizeIgnoresTrailingSlash(originalUrl);
  }

  /** A lower-case query finds a stored link whose host is spelled with capitals. */
  lemma MixedCaseMatch(baseUrl: string)
    ensures var stored := map["abc" := NewLink("https://Example.com/a", "abc", None, None, 0)];
      SearchLinks(stored, baseUrl, "https://example.com").Ok?
  {
    var l := NewLink("https://Example.com/a", "abc", None, None, 0);
    var q := "https://example.com";
    assert RStripSlashes(q) == q;
    assert Normalize(q) == q by {
      forall i | 0 <= i < |q| ensures Lower(q)[i] == q[i] {}
    }
    assert Matches(l, q) by {
      var low := Lower(l.longUrl);
      forall i | 0 <= i < |q| ensures low[i] == q[i] {}
    }
    var stored := map["abc" := l];
    assert stored["abc"] == l;
  }
}
