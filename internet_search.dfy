/** Post-processing of web search results (class `AdvancedInternetSearch` of
    src/core/internet_search.py): merging the hits of the three back-ends,
    dropping repeated urls, ordering by content length, truncating, and
    storing results as rows of the search `knowledge` table. The back-ends
    themselves (HTTP requests and HTML parsing) are an oracle. */
module InternetSearch {

  import opened Common
  import opened StableSort

  /** One hit: its title, url, text and the label of the back-end. */
  datatype SearchResult = SearchResult(title: string, url: string, content: string, source: string)

  /** The back-ends, in the order they are asked. */
  datatype Source = DuckDuckGo | GoogleNews | Wikipedia

  const Sources: seq<Source> := [DuckDuckGo, GoogleNews, Wikipedia]

  /** A back-end asked for at most `n` hits on a query; `None` when it raises. */
  type Backend = (Source, string, int) -> Option<seq<SearchResult>>

  /** A row of the search `knowledge` table. */
  datatype Page = Page(
    id: int,
    sourceUrl: string,
    title: string,
    content: string,
    topic: string,
    language: string,
    qualityScore: real,
    timestamp: int)

  /** Column defaults of the table. */
  const DefaultLanguage: string := "ru"
  const DefaultQuality: real := 1.0

  function UrlOf(r: SearchResult): string {
    r.url
  }

  function Urls(rs: seq<SearchResult>): set<string> {
    set r | r in rs :: r.url
  }

  lemma UrlsAppend(rs: seq<SearchResult>, x: SearchResult)
    ensures Urls(rs + [x]) == Urls(rs) + {x.url}
  {
    assert forall r :: r in rs + [x] <==> r in rs || r == x;
  }

  /** The results with every url after its first occurrence dropped. */
  function FirstOccurrences(rs: seq<SearchResult>): (r: seq<SearchResult>)
    ensures Urls(r) == Urls(rs)
    ensures DistinctBy(r, UrlOf)
    ensures forall x | x in r :: x in rs
  {
    if rs == [] then []
    else
      var prev := FirstOccurrences(rs[..|rs| - 1]);
      var last := rs[|rs| - 1];
      assert rs == rs[..|rs| - 1] + [last];
      UrlsAppend(rs[..|rs| - 1], last);
      if last.url in Urls(prev) then prev
      else
        UrlsAppend(prev, last);
        prev + [last]
  }

  /** The kept results appear in input order: `idx` maps each kept result
      to its position in the input, strictly increasing, and that position is
      the first one holding its url. */
  lemma {:induction false} FirstOccurrencesInOrder(rs: seq<SearchResult>) returns (idx: seq<nat>)
    ensures |idx| == |FirstOccurrences(rs)|
    ensures forall k :: 0 <= k < |idx| ==> idx[k] < |rs| && FirstOccurrences(rs)[k] == rs[idx[k]]
    ensures forall k, l :: 0 <= k < l < |idx| ==> idx[k] < idx[l]
    ensures forall k, j :: 0 <= k < |idx| && 0 <= j < idx[k] ==> rs[j].url != rs[idx[k]].url
    decreases |rs|
  {
    if rs == [] {
      idx := [];
    } else {
      var init := rs[..|rs| - 1];
      var last := rs[|rs| - 1];
      var prev := FirstOccurrences(init);
      var pidx := FirstOccurrencesInOrder(init);
      assert forall j :: 0 <= j < |init| ==> rs[j] == init[j];
      if last.url in Urls(prev) {
        assert FirstOccurrences(rs) == prev;
        idx := pidx;
      } else {
        assert FirstOccurrences(rs) == prev + [last];
        forall j | 0 <= j < |init| ensures rs[j].url != last.url {
          assert init[j] in init;
        }
        idx := pidx + [|rs| - 1];
      }
    }
  }

  /** The kept result for a url is its first occurrence in the input. */
  lemma {:induction false} FirstOccurrenceKept(rs: seq<SearchResult>, i: nat)
    requires i < |rs|
    requires forall j :: 0 <= j < i ==> rs[j].url != rs[i].url
    ensures rs[i] in FirstOccurrences(rs)
    decreases |rs|
  {
    var init := rs[..|rs| - 1];
    if i < |rs| - 1 {
      FirstOccurrenceKept(init, i);
    } else {
      assert forall x | x in init :: x.url != rs[i].url by {
        forall x | x in init ensures x.url != rs[i].url {
          var j :| 0 <= j < |init| && init[j] == x;
        }
      }
      assert rs[i].url !in Urls(FirstOccurrences(init));
    }
  }

  /** `sort(key=len(content), reverse=True)`. */
  predicate LongerOrSame(a: SearchResult, b: SearchResult) {
    |a.content| >= |b.content|
  }

  lemma LengthIsPreorder()
    ensures TotalPreorder(LongerOrSame)
  {
  }

  /** What `_deduplicate_results` returns. */
  function Deduplicated(rs: seq<SearchResult>): seq<SearchResult> {
    Sort(FirstOccurrences(rs), LongerOrSame)
  }

  /** De-duplication: urls pairwise distinct, every input url present,
      nothing but input elements, and no longer than the input. */
  lemma DeduplicatedUrls(rs: seq<SearchResult>)
    ensures DistinctBy(Deduplicated(rs), UrlOf)
    ensures Urls(Deduplicated(rs)) == Urls(rs)
    ensures forall x | x in Deduplicated(rs) :: x in rs
    ensures |Deduplicated(rs)| <= |rs|
  {
    var first := FirstOccurrences(rs);
    SortDistinct(first, LongerOrSame, UrlOf);
    SameElements(first);
    DistinctLength(rs);
  }

  /** Sorting changes no membership. */
  lemma SameElements(first: seq<SearchResult>)
    ensures forall x :: x in Sort(first, LongerOrSame) <==> x in first
  {
    forall x ensures x in Sort(first, LongerOrSame) <==> x in first {
      assert x in Sort(first, LongerOrSame) <==> x in multiset(Sort(first, LongerOrSame));
    }
  }

  /** The result for each url is the first input result with that url. */
  lemma DeduplicatedKeepsFirst(rs: seq<SearchResult>, i: nat)
    requires i < |rs|
    requires forall j :: 0 <= j < i ==> rs[j].url != rs[i].url
    ensures rs[i] in Deduplicated(rs)
  {
    FirstOccurrenceKept(rs, i);
    SameElements(FirstOccurrences(rs));
  }

  /** Distinct urls are at most as many as the results they come from. */
  lemma {:induction false} DistinctLength(rs: seq<SearchResult>)
    ensures |FirstOccurrences(rs)| <= |rs|
    decreases |rs|
  {
    if rs != [] {
      DistinctLength(rs[..|rs| - 1]);
    }
  }

  /** Longest content first; equal lengths keep first-occurrence order. */
  lemma DeduplicatedOrder(rs: seq<SearchResult>, x: SearchResult)
    ensures Sorted(Deduplicated(rs), LongerOrSame)
    ensures Tier(Deduplicated(rs), LongerOrSame, x) == Tier(FirstOccurrences(rs), LongerOrSame, x)
  {
    LengthIsPreorder();
    SortSorted(FirstOccurrences(rs), LongerOrSame);
    SortStable(FirstOccurrences(rs), LongerOrSame, x);
  }

  /** The hits of the back-ends that answered, in back-end order; a back-end
      that raised contributes nothing. */
  function Gathered(sources: seq<Source>, query: string, perSource: int, search: Backend): seq<SearchResult> {
    if sources == [] then []
    else
      Gathered(sources[..|sources| - 1], query, perSource, search)
        + search(sources[|sources| - 1], query, perSource).GetOr([])
  }

  /** A hit is gathered exactly when some back-end that answered, asked for
      `perSource` hits, returned it. */
  lemma {:induction false} GatheredFromBackends(sources: seq<Source>, query: string, perSource: int, search: Backend)
    ensures forall x | x in Gathered(sources, query, perSource, search) ::
      exists s | s in sources :: search(s, query, perSource).Some? && x in search(s, query, perSource).value
    ensures forall s, x | s in sources && search(s, query, perSource).Some? && x in search(s, query, perSource).value ::
      x in Gathered(sources, query, perSource, search)
    decreases |sources|
  {
    if sources != [] {
      var init := sources[..|sources| - 1];
      var last := sources[|sources| - 1];
      GatheredFromBackends(init, query, perSource, search);
      forall s, x | s in sources && search(s, query, perSource).Some? && x in search(s, query, perSource).value
        ensures x in Gathered(sources, query, perSource, search)
      {
        if s != last {
          assert s in init by {
            var k :| 0 <= k < |sources| && sources[k] == s;
            assert init[k] == s;
          }
        }
      }
      forall x | x in Gathered(sources, query, perSource, search)
        ensures exists s | s in sources :: search(s, query, perSource).Some? && x in search(s, query, perSource).value
      {
        if x in Gathered(init, query, perSource, search) {
          var s :| s in init && search(s, query, perSource).Some? && x in search(s, query, perSource).value;
          assert s in sources;
        } else {
          assert last in sources;
        }
      }
    }
  }

  /** The result of `search_multiple_sources`. */
  function MergedResults(query: string, maxResults: int, search: Backend): seq<SearchResult> {
    Take(Deduplicated(Gathered(Sources, query, maxResults / 2, search)), maxResults)
  }

  /** At most `maxResults` results (Python's slice drops from the end for a
      negative bound), distinct urls, longest first, each one a hit some
      back-end returned when asked for `maxResults // 2`. */
  lemma MergedResultsSpec(query: string, maxResults: int, search: Backend)
    ensures maxResults >= 0 ==> |MergedResults(query, maxResults, search)| <= maxResults
    ensures DistinctBy(MergedResults(query, maxResults, search), UrlOf)
    ensures Sorted(MergedResults(query, maxResults, search), LongerOrSame)
    ensures forall x | x in MergedResults(query, maxResults, search) ::
      exists s | s in Sources :: search(s, query, maxResults / 2).Some? && x in search(s, query, maxResults / 2).value
  {
    var all := Gathered(Sources, query, maxResults / 2, search);
    var d := Deduplicated(all);
    var r := MergedResults(query, maxResults, search);
    DeduplicatedUrls(all);
    DeduplicatedOrder(all, SearchResult("", "", "", ""));
    GatheredFromBackends(Sources, query, maxResults / 2, search);
    assert forall j :: 0 <= j < |r| ==> r[j] == d[j];
    forall x | x in r ensures x in all {
      assert x in d;
    }
  }

  /** The row `store_search_results` inserts for one result. */
  function PageRow(id: int, query: string, r: SearchResult, now: int): Page {
    Page(id, r.url, r.title, r.content, query, DefaultLanguage, DefaultQuality, now)
  }

  /** The rows stored for `results`, ids counting up from `firstId`. */
  function PageRows(firstId: int, query: string, results: seq<SearchResult>, now: int): (rows: seq<Page>)
    ensures |rows| == |results|
    ensures forall k :: 0 <= k < |results| ==> rows[k] == PageRow(firstId + k, query, results[k], now)
  {
    if results == [] then []
    else
      PageRows(firstId, query, results[..|results| - 1], now)
        + [PageRow(firstId + |results| - 1, query, results[|results| - 1], now)]
  }

  class AdvancedInternetSearch {
    /** The search `knowledge` table. */
    var pages: seq<Page>
    /** The next AUTOINCREMENT id of `pages`. */
    var nextPageId: int

    ghost predicate Valid()
      reads this
    {
      forall p | p in pages :: p.id < nextPageId
    }

    /** Opens a database holding the given rows. */
    constructor(pages: seq<Page>)
      ensures Valid()
      ensures this.pages == pages
    {
      var next := 1;
      for i := 0 to |pages|
        invariant forall j :: 0 <= j < i ==> pages[j].id < next
      {
        if pages[i].id >= next {
          next := pages[i].id + 1;
        }
      }
      this.pages := pages;
      nextPageId := next;
    }

    /** `_deduplicate_results`: one pass keeping unseen urls, then the sort. */
    method DeduplicateResults(results: seq<SearchResult>) returns (unique: seq<SearchResult>)
      ensures unique == Deduplicated(results)
    {
      var seen: set<string> := {};
      unique := [];
      for i := 0 to |results|
        invariant unique == FirstOccurrences(results[..i])
        invariant seen == Urls(unique)
      {
        assert results[..i + 1][..i] == results[..i];
        if results[i].url !in seen {
          UrlsAppend(unique, results[i]);
          seen := seen + {results[i].url};
          unique := unique + [results[i]];
        }
      }
      assert results[..|results|] == results;
      unique := Sort(unique, LongerOrSame);
    }

    /** `search_multiple_sources`: asks each back-end in turn for
        `maxResults // 2` hits, skips the ones that raise, de-duplicates and
        keeps the first `maxResults`. */
    method SearchMultipleSources(query: string, search: Backend, maxResults: int := 5) returns (r: seq<SearchResult>)
      ensures r == MergedResults(query, maxResults, search)
    {
      var all: seq<SearchResult> := [];
      for i := 0 to |Sources|
        invariant all == Gathered(Sources[..i], query, maxResults / 2, search)
      {
        assert Sources[..i + 1][..i] == Sources[..i];
        var hits := search(Sources[i], query, maxResults / 2);
        if hits.Some? {
          all := all + hits.value;
        }
      }
      assert Sources[..|Sources|] == Sources;
      var unique := DeduplicateResults(all);
      r := Take(unique, maxResults);
    }

    /** `store_search_results`: one row per result, in order, with the query
        as topic and the column defaults. */
    method StoreSearchResults(query: string, results: seq<SearchResult>, now: int)
      requires Valid()
      modifies this
      ensures Valid()
      ensures pages == old(pages) + PageRows(old(nextPageId), query, results, now)
      ensures nextPageId == old(nextPageId) + |results|
    {
      for i := 0 to |results|
        invariant pages == old(pages) + PageRows(old(nextPageId), query, results[..i], now)
        invariant nextPageId == old(nextPageId) + i
        invariant Valid()
      {
        assert results[..i + 1][..i] == results[..i];
        pages := pages + [PageRow(nextPageId, query, results[i], now)];
        nextPageId := nextPageId + 1;
      }
      assert results[..|results|] == results;
    }
  }
}
