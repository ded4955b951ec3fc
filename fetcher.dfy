/**
 * The arXiv API fetchers: url_tools/arxiv_fetcher.py (configurable query, size and
 * sort order) and arxiv_fetcher.py (a fixed query). Both scan the API's results in the
 * order returned, stop at the first one published before the window, and keep those
 * not published after its end. The API client is the parameter `results`, mapping a
 * search to the results it yields; times are whole seconds since the epoch.
 */
module Fetcher {
  import opened Wrappers
  import opened Seqs

  datatype SortCriterion = Relevance | LastUpdatedDate | SubmittedDate

  /** What the API is asked for. */
  datatype Search = Search(query: string, maxResults: int, sortBy: SortCriterion)

  /** The configured fetcher of url_tools/arxiv_fetcher.py. */
  datatype Fetcher = Fetcher(maxResults: int, searchQuery: string, sortBy: SortCriterion)

  /** The constructor's assertion. */
  datatype InitError = EmptySearchQuery

  /** One API result, reduced to the fields the fetchers read. */
  datatype ArxivResult = ArxivResult(title: string, summary: string, authors: seq<string>, published: int, entryId: string)

  /** A paper as the fetchers return it. */
  datatype FetchedPaper = FetchedPaper(title: string, abstractText: string, authors: seq<string>, published: int, url: string)

  const SecondsPerDay := 86400

  /** The sort option's spellings: two per criterion, anything else falls back to the last-updated date. */
  function SortCriterionOf(sortBy: string): (c: SortCriterion)
    ensures c == Relevance <==> sortBy == "relevance" || sortBy == "relevant"
    ensures c == SubmittedDate <==> sortBy == "submittedDate" || sortBy == "submitted"
    ensures c == LastUpdatedDate <==>
              sortBy !in ["submittedDate", "submitted", "relevance", "relevant"]
  {
    if sortBy in ["lastUpdatedDate", "last"] then LastUpdatedDate
    else if sortBy in ["submittedDate", "submitted"] then SubmittedDate
    else if sortBy in ["relevance", "relevant"] then Relevance
    else LastUpdatedDate
  }

  /** `ArxivFetcher.__init__`: fails its assertion on an empty query. */
  function NewFetcher(maxResults: int, searchQuery: string, sortBy: string): (r: Result<Fetcher, InitError>)
    ensures r.Err? <==> searchQuery == []
    ensures r.Ok? ==> r.value == Fetcher(maxResults, searchQuery, SortCriterionOf(sortBy))
  {
    if searchQuery == "" then Err(EmptySearchQuery)
    else Ok(Fetcher(maxResults, searchQuery, SortCriterionOf(sortBy)))
  }

  /** The search a configured fetcher sends. */
  function SearchOf(f: Fetcher): Search {
    Search(f.searchQuery, f.maxResults, f.sortBy)
  }

  /** The fixed search of arxiv_fetcher.py: computation-and-language papers, ten, newest submissions first. */
  const FixedSearch := Search("cat:cs.CL", 10, SubmittedDate)

  /** `end_date - timedelta(days=days)`. */
  function StartDate(endDate: int, days: int): (s: int)
    ensures days >= 0 ==> s <= endDate
    ensures s + days * SecondsPerDay == endDate
  {
    endDate - days * SecondsPerDay
  }

  function ToPaper(r: ArxivResult): (p: FetchedPaper)
    ensures p.title == r.title && p.abstractText == r.summary && p.authors == r.authors
    ensures p.published == r.published && p.url == r.entryId
  {
    FetchedPaper(r.title, r.summary, r.authors, r.published, r.entryId)
  }

  /** The papers the scan keeps from `rs`: it stops at the first result older than `start`, and skips future ones. */
  function Collected(rs: seq<ArxivResult>, start: int, end: int): seq<FetchedPaper> {
    if rs == [] || rs[0].published < start then []
    else (if rs[0].published <= end then [ToPaper(rs[0])] else []) + Collected(rs[1..], start, end)
  }

  /** The scan loop of `get_recent_papers`, over the results in the order the API yields them. */
  method Scan(results: seq<ArxivResult>, start: int, end: int) returns (papers: seq<FetchedPaper>)
    ensures papers == Collected(results, start, end)
  {
    papers := [];
    var i := 0;
    while i < |results|
      invariant 0 <= i <= |results|
      invariant papers + Collected(results[i..], start, end) == Collected(results, start, end)
    {
      var result := results[i];
      var publishedDate := result.published;
      if publishedDate < start {
        break;
      }
      ghost var later := Collected(results[i + 1..], start, end);
      assert results[i..][1..] == results[i + 1..];
      assert Collected(results[i..], start, end) == (if publishedDate <= end then [ToPaper(result)] else []) + later;
      if publishedDate <= end {
        AppendAssoc(papers, [ToPaper(result)], later);
        papers := papers + [ToPaper(result)];
      }
      i := i + 1;
    }
  }

  /** `get_recent_papers` of url_tools/arxiv_fetcher.py, with `now` as `end_date`. */
  method GetRecentPapers(f: Fetcher, results: Search -> seq<ArxivResult>, now: int, days: int)
    returns (papers: seq<FetchedPaper>)
    ensures papers == Collected(results(SearchOf(f)), StartDate(now, days), now)
  {
    var startDate := now - days * SecondsPerDay;
    papers := Scan(results(Search(f.searchQuery, f.maxResults, f.sortBy)), startDate, now);
  }

  /** `get_recent_papers` of arxiv_fetcher.py: the same scan over the fixed search. */
  method GetRecentPapersFixed(results: Search -> seq<ArxivResult>, now: int, days: int)
    returns (papers: seq<FetchedPaper>)
    ensures papers == Collected(results(FixedSearch), StartDate(now, days), now)
  {
    var startDate := now - days * SecondsPerDay;
    papers := Scan(results(Search("cat:cs.CL", 10, SubmittedDate)), startDate, now);
  }

  /** Where the scan stops: the index of the first result older than `start`, or `|rs|`. */
  function ScanEnd(rs: seq<ArxivResult>, start: int): (k: nat)
    ensures k <= |rs|
    ensures forall i :: 0 <= i < k ==> rs[i].published >= start
    ensures k < |rs| ==> rs[k].published < start
  {
    if rs == [] || rs[0].published < start then 0 else 1 + ScanEnd(rs[1..], start)
  }

  /** The results kept from `rs` when nothing stops the scan: those not after `end`, in order. */
  function NotAfter(rs: seq<ArxivResult>, end: int): seq<FetchedPaper> {
    if rs == [] then [] else (if rs[0].published <= end then [ToPaper(rs[0])] else []) + NotAfter(rs[1..], end)
  }

  /** The scan is a take-while followed by a filter: the results before the stop, minus the future ones. */
  lemma {:induction false} CollectedIsFilteredPrefix(rs: seq<ArxivResult>, start: int, end: int)
    ensures Collected(rs, start, end) == NotAfter(rs[..ScanEnd(rs, start)], end)
  {
    if rs != [] && rs[0].published >= start {
      CollectedIsFilteredPrefix(rs[1..], start, end);
      var k := ScanEnd(rs, start);
      assert rs[..k][1..] == rs[1..][..k - 1];
    }
  }

  /** Every paper returned lies in the window `[start, end]` and comes from one of the results. */
  lemma {:induction false} CollectedInWindow(rs: seq<ArxivResult>, start: int, end: int)
    ensures forall p <- Collected(rs, start, end) ::
              start <= p.published <= end && exists r <- rs :: p == ToPaper(r)
  {
    if rs != [] && rs[0].published >= start {
      CollectedInWindow(rs[1..], start, end);
      forall p <- Collected(rs[1..], start, end) ensures exists r <- rs :: p == ToPaper(r) {
        var r :| r in rs[1..] && p == ToPaper(r);
        assert r in rs;
      }
    }
  }

  /** A result before the stop and not after `end` is returned. */
  lemma {:induction false} CollectedComplete(rs: seq<ArxivResult>, start: int, end: int, i: int)
    requires 0 <= i < ScanEnd(rs, start) && rs[i].published <= end
    ensures ToPaper(rs[i]) in Collected(rs, start, end)
  {
    if i > 0 {
      CollectedComplete(rs[1..], start, end, i - 1);
    }
  }

  /** An old result ends the scan: nothing after it is returned, even if it lies in the window. */
  lemma {:induction false} StopsAtOldResult(rs: seq<ArxivResult>, start: int, end: int, k: int)
    requires 0 <= k < |rs| && rs[k].published < start
    ensures Collected(rs, start, end) == Collected(rs[..k], start, end)
  {
    if k > 0 && rs[0].published >= start {
      StopsAtOldResult(rs[1..], start, end, k - 1);
      assert rs[..k][1..] == rs[1..][..k - 1];
    }
  }

  /** A result from the future is skipped but does not stop the scan. */
  lemma FutureResultSkipped(r: ArxivResult, rs: seq<ArxivResult>, start: int, end: int)
    requires r.published > end && end >= start
    ensures Collected([r] + rs, start, end) == Collected(rs, start, end)
  {
    assert ([r] + rs)[1..] == rs;
  }
}
