/**
 * The arXiv listing-page scrapers of codes/url_tools/arxiv_latest.py and
 * url_tools/arxiv_latest.py. The HTML is taken as already located: a listing entry is
 * a `dt` term (its links) and a `dd` description (its metadata), each field `None` when
 * the element is absent. Fetching a page is the parameter `pages` (or `abstracts` for an
 * abstract page), `None` when the request fails.
 */
module Scraper {
  import opened Wrappers
  import opened Text
  import opened Seqs

  const BaseUrl := "https://arxiv.org"
  const NotAvailable := "N/A"

  /** An `a` element: its text and its `href`, `None` when the attribute is missing. */
  datatype Link = Link(text: string, href: Option<string>)

  /** A `dt` element: its "Abstract" and "Download PDF" links. */
  datatype Term = Term(abstractLink: Option<Link>, pdfLink: Option<Link>)

  /** The `list-subjects` div: its whole text and the text of its `primary-subject` span. */
  datatype SubjectsDiv = SubjectsDiv(text: string, primary: Option<string>)

  /** The `meta` div: the `list-title` text, the texts of the author links, and the subjects. */
  datatype Meta = Meta(title: Option<string>, authors: Option<seq<string>>, subjects: Option<SubjectsDiv>)

  /** A `dd` element: its `meta` div and the text of its `p.mathjax` abstract. */
  datatype Description = Description(meta: Option<Meta>, mathjax: Option<string>)

  /** The `dt` and `dd` elements found under one element, each in document order. */
  datatype Listing = Listing(terms: seq<Term>, descriptions: seq<Description>)

  /** A listing page: the `div#dlpage` and the `dl#articles`, when present. */
  datatype Page = Page(dlpage: Option<Listing>, articles: Option<Listing>)

  /**
   * An abstract page: the `content` of the `citation_abstract` meta tag (`None` when
   * the tag or the attribute is missing) and the text of `blockquote.abstract`.
   */
  datatype AbstractPage = AbstractPage(citation: Option<string>, blockquote: Option<string>)

  /** The record a scraper returns for one paper. */
  datatype Scraped = Scraped(id: string, title: string, authors: seq<string>, abstractText: string,
                             primarySubject: string, subjects: string, pdfUrl: Option<string>,
                             arxivUrl: string, date: string)

  /** The URL of a paper's abstract page. */
  function AbsUrl(id: string): string {
    BaseUrl + "/abs/" + id
  }

  /** `_get_abstract` given the fetched page: the citation content, else the blockquote, else "N/A". */
  function GetAbstract(page: Option<AbstractPage>): (a: string)
    ensures page.None? ==> a == NotAvailable
    ensures page.Some? && page.value.citation.Some? && page.value.citation.value != [] ==>
              a == Strip(page.value.citation.value)
    ensures page.Some? && (page.value.citation.None? || page.value.citation.value == []) && page.value.blockquote.Some? ==>
              a == Strip(RemoveAll(page.value.blockquote.value, "Abstract:"))
    ensures page.Some? && (page.value.citation.None? || page.value.citation.value == []) && page.value.blockquote.None? ==>
              a == NotAvailable
  {
    match page
    case None => NotAvailable
    case Some(p) =>
      if p.citation.Some? && p.citation.value != "" then Strip(p.citation.value)
      else if p.blockquote.Some? then Strip(RemoveAll(p.blockquote.value, "Abstract:"))
      else NotAvailable
  }

  /** Where an entry's abstract comes from: the paper's own abstract page, or the listing's `p.mathjax`. */
  datatype AbstractSource = FromAbstractPage(abstracts: string -> Option<AbstractPage>) | FromListing

  function AbstractOf(src: AbstractSource, id: string, dd: Description): string {
    match src
    case FromAbstractPage(abstracts) => GetAbstract(abstracts(AbsUrl(id)))
    case FromListing => if dd.mathjax.Some? then Strip(dd.mathjax.value) else NotAvailable
  }

  /**
   * The body of the entry loop: `None` when the entry is skipped, because it has no
   * Abstract link, has a PDF link without `href` (the KeyError is caught), or has no meta div.
   */
  function ParseEntry(dt: Term, dd: Description, src: AbstractSource, today: string): (r: Option<Scraped>)
    ensures r.Some? <==>
              dt.abstractLink.Some? && dd.meta.Some? && (dt.pdfLink.None? || dt.pdfLink.value.href.Some?)
    ensures r.Some? ==>
              && r.value.id == RemoveAll(Strip(dt.abstractLink.value.text), "arXiv:")
              && r.value.arxivUrl == AbsUrl(r.value.id)
              && r.value.pdfUrl == (if dt.pdfLink.Some? then Some(BaseUrl + dt.pdfLink.value.href.value) else None)
              && r.value.abstractText == AbstractOf(src, r.value.id, dd)
              && r.value.date == today
    ensures r.Some? ==>
              var m := dd.meta.value;
              && r.value.title == (if m.title.Some? then Strip(RemoveAll(m.title.value, "Title:")) else NotAvailable)
              && r.value.authors == (if m.authors.Some? then Stripped(m.authors.value) else [])
              && r.value.subjects == (if m.subjects.Some? then Strip(RemoveAll(m.subjects.value.text, "Subjects:")) else NotAvailable)
              && r.value.primarySubject ==
                   (if m.subjects.Some? && m.subjects.value.primary.Some? then Strip(m.subjects.value.primary.value) else NotAvailable)
  {
    if dt.abstractLink.None? then None
    else
      var id := RemoveAll(Strip(dt.abstractLink.value.text), "arXiv:");
      if dt.pdfLink.Some? && dt.pdfLink.value.href.None? then None
      else
        var pdfUrl := if dt.pdfLink.Some? then Some(BaseUrl + dt.pdfLink.value.href.value) else None;
        if dd.meta.None? then None
        else
          var m := dd.meta.value;
          var title := if m.title.Some? then Strip(RemoveAll(m.title.value, "Title:")) else NotAvailable;
          var authors := if m.authors.Some? then Stripped(m.authors.value) else [];
          var abstractText := AbstractOf(src, id, dd);
          var primary :=
            if m.subjects.Some? && m.subjects.value.primary.Some? then Strip(m.subjects.value.primary.value) else NotAvailable;
          var subjects := if m.subjects.Some? then Strip(RemoveAll(m.subjects.value.text, "Subjects:")) else NotAvailable;
          Some(Scraped(id, title, authors, abstractText, primary, subjects, pdfUrl, AbsUrl(id), today))
  }

  /**
   * A link reading `arXiv:<n>` gives the id `<n>` and the abstract page of `<n>`, when `<n>`
   * does not end in whitespace and does not itself contain "arXiv:".
   */
  lemma IdFromArxivLink(dt: Term, dd: Description, src: AbstractSource, today: string, n: string)
    requires dt.abstractLink.Some? && dt.abstractLink.value.text == "arXiv:" + n
    requires n == [] || !IsSpace(n[|n| - 1])
    requires forall i: nat :: !OccursAt(n, "arXiv:", i)
    ensures ParseEntry(dt, dd, src, today).Some? ==>
              ParseEntry(dt, dd, src, today).value.id == n &&
              ParseEntry(dt, dd, src, today).value.arxivUrl == BaseUrl + "/abs/" + n
  {
    assert !IsSpace('a') && !IsSpace(':');
    StripRemoveLeading("arXiv:", n);
  }

  /** `[a.text.strip() for a in author_links]`. */
  function Stripped(texts: seq<string>): (r: seq<string>)
    ensures |r| == |texts| && forall i :: 0 <= i < |texts| ==> r[i] == Strip(texts[i])
  {
    seq(|texts|, i requires 0 <= i < |texts| => Strip(texts[i]))
  }

  /** `zip(dts, dds)`: pairs up to the shorter list. */
  function Zip(terms: seq<Term>, descriptions: seq<Description>): (entries: seq<(Term, Description)>)
    ensures |entries| == if |terms| <= |descriptions| then |terms| else |descriptions|
    ensures forall i :: 0 <= i < |entries| ==> entries[i] == (terms[i], descriptions[i])
  {
    var n := if |terms| <= |descriptions| then |terms| else |descriptions|;
    seq(n, i requires 0 <= i < n => (terms[i], descriptions[i]))
  }

  /** The records of the entries that are not skipped, in entry order. */
  function Parsed(entries: seq<(Term, Description)>, src: AbstractSource, today: string): seq<Scraped> {
    FlatMap(RecordOf(src, today), entries)
  }

  function RecordOf(src: AbstractSource, today: string): ((Term, Description)) -> seq<Scraped> {
    e => Record(e, src, today)
  }

  /** What one entry adds to `papers`: its record, or nothing when it is skipped. */
  function Record(e: (Term, Description), src: AbstractSource, today: string): (rs: seq<Scraped>)
    ensures |rs| <= 1
  {
    match ParseEntry(e.0, e.1, src, today)
    case None => []
    case Some(r) => [r]
  }

  /** Python's `if max_results and len(papers) >= max_results: break`: `None` and `0` mean no cap. */
  function Capped(papers: seq<Scraped>, maxResults: Option<int>): (r: seq<Scraped>)
    ensures r <= papers
    ensures maxResults.Some? && maxResults.value != 0 ==>
              |r| == if |papers| <= maxResults.value then |papers| else if maxResults.value < 0 then 0 else maxResults.value
    ensures maxResults.None? || maxResults.value == 0 ==> r == papers
  {
    if maxResults.None? || maxResults.value == 0 then papers
    else if maxResults.value < 0 then []
    else if |papers| <= maxResults.value then papers
    else papers[..maxResults.value]
  }

  /** The entry loop: parse each pair in turn, stopping once the cap is reached. */
  method CollectEntries(listing: Listing, maxResults: Option<int>, src: AbstractSource, today: string)
    returns (papers: seq<Scraped>)
    ensures papers == Capped(Parsed(Zip(listing.terms, listing.descriptions), src, today), maxResults)
  {
    var entries := Zip(listing.terms, listing.descriptions);
    var capped := maxResults.Some? && maxResults.value != 0;
    papers := [];
    var i := 0;
    while i < |entries|
      invariant 0 <= i <= |entries|
      invariant papers == Parsed(entries[..i], src, today)
      invariant capped ==> |papers| <= if maxResults.value < 0 then 0 else maxResults.value
    {
      if capped && |papers| >= maxResults.value {
        break;
      }
      FlatMapSnoc(RecordOf(src, today), entries, i);
      var parsed := ParseEntry(entries[i].0, entries[i].1, src, today);
      if parsed.Some? {
        papers := papers + [parsed.value];
      }
      i := i + 1;
    }
    FlatMapPrefix(RecordOf(src, today), entries, i);
    if i == |entries| {
      assert entries[..i] == entries;
    }
  }

  /** The listing URL of codes/url_tools/arxiv_latest.py. */
  function RecentUrl(category: string): string {
    BaseUrl + "/list/" + category + "/recent"
  }

  /** The listing URL of url_tools/arxiv_latest.py, which asks for up to 2000 entries. */
  function RecentUrlAll(category: string): string {
    BaseUrl + "/list/" + category + "/recent?skip=0&show=2000"
  }

  /**
   * `get_latest_papers` of codes/url_tools/arxiv_latest.py: nothing when the request
   * fails or the page lacks `div#dlpage` or `dl#articles`; otherwise the entries of
   * `dl#articles`, with each abstract fetched from the paper's abstract page.
   */
  method GetLatestPapers(category: string, maxResults: Option<int>, pages: string -> Option<Page>,
                         abstracts: string -> Option<AbstractPage>, today: string)
    returns (papers: seq<Scraped>)
    ensures var page := pages(RecentUrl(category));
            if page.None? || page.value.dlpage.None? || page.value.articles.None? then papers == []
            else papers == Capped(Parsed(Zip(page.value.articles.value.terms, page.value.articles.value.descriptions),
                                         FromAbstractPage(abstracts), today), maxResults)
  {
    var page := pages(BaseUrl + "/list/" + category + "/recent");
    if page.None? || page.value.dlpage.None? || page.value.articles.None? {
      return [];
    }
    papers := CollectEntries(page.value.articles.value, maxResults, FromAbstractPage(abstracts), today);
  }

  /**
   * `get_latest_papers` of url_tools/arxiv_latest.py: nothing when the request fails or
   * the page lacks `div#dlpage`; otherwise the entries under `div#dlpage`, with each
   * abstract read from the listing itself.
   */
  method GetLatestPapersFromListing(category: string, maxResults: Option<int>, pages: string -> Option<Page>, today: string)
    returns (papers: seq<Scraped>)
    ensures var page := pages(RecentUrlAll(category));
            if page.None? || page.value.dlpage.None? then papers == []
            else papers == Capped(Parsed(Zip(page.value.dlpage.value.terms, page.value.dlpage.value.descriptions),
                                         FromListing, today), maxResults)
  {
    var page := pages(BaseUrl + "/list/" + category + "/recent?skip=0&show=2000");
    if page.None? || page.value.dlpage.None? {
      return [];
    }
    papers := CollectEntries(page.value.dlpage.value, maxResults, FromListing, today);
  }

  /** Parsing is entry by entry: the records of two runs of entries are those of each, in order. */
  lemma ParsedAppend(xs: seq<(Term, Description)>, ys: seq<(Term, Description)>, src: AbstractSource, today: string)
    ensures Parsed(xs + ys, src, today) == Parsed(xs, src, today) + Parsed(ys, src, today)
  {
    FlatMapAppend(RecordOf(src, today), xs, ys);
  }

  /** Every record returned comes from an entry that was not skipped, and links to its abstract page. */
  lemma ParsedFromEntries(entries: seq<(Term, Description)>, src: AbstractSource, today: string)
    ensures forall r <- Parsed(entries, src, today) ::
              && r.arxivUrl == AbsUrl(r.id)
              && exists i :: 0 <= i < |entries| && ParseEntry(entries[i].0, entries[i].1, src, today) == Some(r)
  {
    FlatMapOrigin(RecordOf(src, today), entries);
  }

  /** Entries that are skipped contribute nothing; the others one record each. */
  lemma ParsedCount(entries: seq<(Term, Description)>, src: AbstractSource, today: string)
    ensures |Parsed(entries, src, today)| <= |entries|
    ensures (forall i :: 0 <= i < |entries| ==> entries[i].0.abstractLink.None?) ==> Parsed(entries, src, today) == []
  {
    FlatMapAtMostOne(RecordOf(src, today), entries);
    if forall i :: 0 <= i < |entries| ==> entries[i].0.abstractLink.None? {
      FlatMapNone(RecordOf(src, today), entries);
    }
  }
}
