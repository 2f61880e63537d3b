/** The web scraper tool (src/component/tools/WebScraper.jsx): the search
    filter over the loaded page of scraped items, the pagination controls,
    the markdown preview, and the controller whose fields are the tool's
    state hooks, with the scrape, crawl, delete and load handlers. The
    server's answers are parameters; every request sent is recorded. */
module WebScraper {
  import opened Common

  /** A scraped item as the list endpoint returns it; title, url and
      markdown may be absent. */
  datatype ScrapedItem = ScrapedItem(id: string, title: Option<string>, url: Option<string>, markdown: Option<string>)

  // ---------------------------------------------------------------------
  // Search filter
  // ---------------------------------------------------------------------

  /** `field?.toLowerCase().includes(term.toLowerCase())`: an absent field
      never matches, a present one (even empty) is searched. */
  predicate FieldMatches(field: Option<string>, term: string)
  {
    field.Some? && Contains(Lower(field.value), Lower(term))
  }

  /** The test `filteredData` applies to each item: title or url. */
  predicate MatchesSearch(item: ScrapedItem, term: string)
  {
    FieldMatches(item.title, term) || FieldMatches(item.url, term)
  }

  /** `b` keeps all of `a`'s elements in `a`'s order, possibly with others between. */
  predicate IsSubsequence<T(==)>(a: seq<T>, b: seq<T>)
    decreases |b|
  {
    a == [] || (|b| > 0 && ((a[0] == b[0] && IsSubsequence(a[1..], b[1..])) || IsSubsequence(a, b[1..])))
  }

  /** `filteredData`: the items matching the search, in their order, each
      kept as often as it occurs and the others dropped. */
  function FilteredData(items: seq<ScrapedItem>, term: string): (r: seq<ScrapedItem>)
    ensures forall x :: x in r ==> MatchesSearch(x, term)
    ensures forall x :: multiset(r)[x] == if MatchesSearch(x, term) then multiset(items)[x] else 0
    ensures IsSubsequence(r, items)
    ensures |r| <= |items|
  {
    if items == [] then []
    else
      var rest := FilteredData(items[1..], term);
      assert items == [items[0]] + items[1..];
      if MatchesSearch(items[0], term) then [items[0]] + rest else rest
  }

  /** The empty search keeps exactly the items that have a title or a url. */
  lemma EmptySearchKeepsTitledOrLinked(items: seq<ScrapedItem>, x: ScrapedItem)
    ensures x in FilteredData(items, "") <==> x in items && (x.title.Some? || x.url.Some?)
  {
    if x.title.Some? {
      assert "" <= Lower(x.title.value);
    }
    if x.url.Some? {
      assert "" <= Lower(x.url.value);
    }
    assert multiset(FilteredData(items, ""))[x] > 0 <==> x in FilteredData(items, "");
    assert multiset(items)[x] > 0 <==> x in items;
  }

  /** Two search terms that lower-case alike select the same items. */
  lemma {:induction false} SearchIgnoresCase(items: seq<ScrapedItem>, a: string, b: string)
    requires Lower(a) == Lower(b)
    ensures FilteredData(items, a) == FilteredData(items, b)
    decreases |items|
  {
    if items != [] {
      SearchIgnoresCase(items[1..], a, b);
    }
  }

  /** In particular typing the search in capitals changes nothing. */
  lemma UpperCaseSearch(items: seq<ScrapedItem>, term: string)
    ensures FilteredData(items, Upper(term)) == FilteredData(items, term)
  {
    LowerOfUpper(term);
    SearchIgnoresCase(items, Upper(term), term);
  }

  /** Filtering the filtered list again changes nothing. */
  lemma {:induction false} FilterIdempotent(items: seq<ScrapedItem>, term: string)
    ensures FilteredData(FilteredData(items, term), term) == FilteredData(items, term)
    decreases |items|
  {
    if items != [] {
      FilterIdempotent(items[1..], term);
      var rest := FilteredData(items[1..], term);
      if MatchesSearch(items[0], term) {
        assert ([items[0]] + rest)[1..] == rest;
      }
    }
  }

  // ---------------------------------------------------------------------
  // Pagination and preview
  // ---------------------------------------------------------------------

  /** The pagination bar is drawn only when there is more than one page. */
  datatype Direction = Previous | Next

  /** The page a pagination button loads, or None when it is disabled. */
  function PageTarget(currentPage: int, totalPages: int, dir: Direction): (t: Option<int>)
    ensures dir == Previous ==> (t.None? <==> currentPage == 1)
    ensures dir == Next ==> (t.None? <==> currentPage == totalPages)
    ensures t.Some? ==> t.value - currentPage == (if dir == Previous then -1 else 1)
  {
    match dir
    case Previous => if currentPage == 1 then None else Some(currentPage - 1)
    case Next => if currentPage == totalPages then None else Some(currentPage + 1)
  }

  /** The pagination bar is drawn only when there is more than one page,
      that is, exactly when Next is enabled on the first page. */
  predicate PaginationShown(totalPages: int)
    ensures totalPages >= 1 ==> (PaginationShown(totalPages) <==> PageTarget(1, totalPages, Next).Some?)
  {
    totalPages > 1
  }

  /** From a page within range, every enabled button stays within range. */
  lemma PageTargetInRange(currentPage: int, totalPages: int, dir: Direction)
    requires 1 <= currentPage <= totalPages
    ensures PageTarget(currentPage, totalPages, dir).Some? ==> 1 <= PageTarget(currentPage, totalPages, dir).value <= totalPages
  {
  }

  /** The markdown column: the first 100 characters followed by "...", or
      the placeholder when there is no markdown (or it is empty). */
  function MarkdownPreview(markdown: Option<string>): (r: string)
    ensures !Truthy(markdown) ==> r == "No markdown"
    ensures Truthy(markdown) ==>
              && EndsWith(r, "...")
              && |r| == (if |markdown.value| < 100 then |markdown.value| else 100) + 3
              && r[..|r| - 3] <= markdown.value
  {
    if Truthy(markdown) then
      var md := markdown.value;
      var head := if |md| < 100 then md else md[..100];
      assert (head + "...")[..|head|] == head;
      head + "..."
    else "No markdown"
  }

  // ---------------------------------------------------------------------
  // The tool's state
  // ---------------------------------------------------------------------

  /** The list endpoint's answer: one page of items and its pagination. */
  datatype LoadedPage = LoadedPage(items: seq<ScrapedItem>, totalPages: int, currentPage: int)

  datatype ScrapeForm = ScrapeForm(url: string, kind: string)
  datatype CrawlForm = CrawlForm(url: string, limit: int)

  const DefaultScrapeForm := ScrapeForm("", "single")
  const DefaultCrawlForm := CrawlForm("", 10)

  /** A request the tool sends to the scraper endpoints. */
  datatype ScraperRequest =
    | ListData(page: int)
    | ScrapeUrl(url: string)
    | CrawlSite(url: string, limit: int)
    | DeleteData(id: string)

  /** The state hooks of the tool. The banners `error` and `success` are
      strings, the empty string meaning no banner. `requests` records every
      request sent, in order. */
  class ScraperState {
    var scrapedData: seq<ScrapedItem>
    var loading: bool
    var error: string
    var success: string
    var currentPage: int
    var totalPages: int
    var searchTerm: string
    var scrapeForm: ScrapeForm
    var crawlForm: CrawlForm
    var requests: seq<ScraperRequest>

    /** The rows the table shows. */
    function Shown(): seq<ScrapedItem>
      reads this`scrapedData, this`searchTerm
    {
      FilteredData(scrapedData, searchTerm)
    }

    /** The initial hooks, after the mount effect has started loading page 1. */
    constructor ()
      ensures scrapedData == [] && loading && error == "" && success == ""
      ensures currentPage == 1 && totalPages == 1 && searchTerm == ""
      ensures scrapeForm == DefaultScrapeForm && crawlForm == DefaultCrawlForm
      ensures requests == [ListData(1)]
    {
      scrapedData := [];
      loading := true;
      error, success := "", "";
      currentPage, totalPages := 1, 1;
      searchTerm := "";
      scrapeForm := DefaultScrapeForm;
      crawlForm := DefaultCrawlForm;
      requests := [ListData(1)];
    }

    /** The synchronous start of `loadScrapedData(page)`. It does not clear
        an earlier error. */
    method BeginLoad(page: int)
      modifies this`loading, this`requests
      ensures loading
      ensures requests == old(requests) + [ListData(page)]
    {
      loading := true;
      requests := requests + [ListData(page)];
    }

    /** The rest of `loadScrapedData`, once the list endpoint has answered. */
    method CompleteLoad(o: FetchOutcome<LoadedPage>)
      modifies this`scrapedData, this`totalPages, this`currentPage, this`error, this`loading
      ensures !loading
      ensures o.Json? && o.success ==>
                && scrapedData == o.data.items
                && totalPages == o.data.totalPages
                && currentPage == o.data.currentPage
                && error == old(error)
      ensures !(o.Json? && o.success) ==>
                && scrapedData == old(scrapedData)
                && totalPages == old(totalPages)
                && currentPage == old(currentPage)
      ensures o.Json? && !o.success ==> error == "Failed to load scraped data"
      ensures o.Failed? ==> error == "Error loading scraped data: " + o.errMessage
    {
      match o {
      case Json(ok, page, _) =>
        if ok {
          scrapedData := page.items;
          totalPages := page.totalPages;
          currentPage := page.currentPage;
        } else {
          error := "Failed to load scraped data";
        }
      case Failed(m) =>
        error := "Error loading scraped data: " + m;
      }
      loading := false;
    }

    method SetScrapeUrl(url: string)
      modifies this`scrapeForm
      ensures scrapeForm == old(scrapeForm).(url := url)
    {
      scrapeForm := scrapeForm.(url := url);
    }

    method SetCrawlUrl(url: string)
      modifies this`crawlForm
      ensures crawlForm == old(crawlForm).(url := url)
    {
      crawlForm := crawlForm.(url := url);
    }

    method SetCrawlLimit(limit: int)
      modifies this`crawlForm
      ensures crawlForm == old(crawlForm).(limit := limit)
    {
      crawlForm := crawlForm.(limit := limit);
    }

    method SetSearchTerm(term: string)
      modifies this`searchTerm
      ensures searchTerm == term
      ensures Shown() == FilteredData(scrapedData, term)
    {
      searchTerm := term;
    }

    /** `handleScrapeSingle`, with `o` the scrape endpoint's answer. An empty
        URL is refused before any request. On success the form is reset and
        a reload of page 1 is started without being awaited, so the
        handler's own `finally` leaves `loading` off while it runs. */
    method ScrapeSingle(o: FetchOutcome<()>)
      modifies this`error, this`success, this`loading, this`scrapeForm, this`requests
      ensures old(scrapeForm.url) == "" ==>
                && error == "Please enter a URL"
                && success == old(success) && loading == old(loading)
                && scrapeForm == old(scrapeForm) && requests == old(requests)
      ensures old(scrapeForm.url) != "" ==> !loading
      ensures old(scrapeForm.url) != "" && o.Json? && o.success ==>
                && success == "URL scraped successfully!" && error == ""
                && scrapeForm == DefaultScrapeForm
                && requests == old(requests) + [ScrapeUrl(old(scrapeForm.url)), ListData(1)]
      ensures old(scrapeForm.url) != "" && !(o.Json? && o.success) ==>
                && success == "" && scrapeForm == old(scrapeForm)
                && requests == old(requests) + [ScrapeUrl(old(scrapeForm.url))]
      ensures old(scrapeForm.url) != "" && o.Json? && !o.success ==> error == OrElse(o.error, "Scraping failed")
      ensures old(scrapeForm.url) != "" && o.Failed? ==> error == "Error scraping URL: " + o.errMessage
    {
      if scrapeForm.url == "" {
        error := "Please enter a URL";
        return;
      }
      loading := true;
      error, success := "", "";
      requests := requests + [ScrapeUrl(scrapeForm.url)];
      match o {
      case Json(ok, _, err) =>
        if ok {
          success := "URL scraped successfully!";
          scrapeForm := DefaultScrapeForm;
          BeginLoad(1);
        } else {
          error := OrElse(err, "Scraping failed");
        }
      case Failed(m) =>
        error := "Error scraping URL: " + m;
      }
      loading := false;
    }

    /** `handleCrawlWebsite`, with `o` the crawl endpoint's answer (the pages
        crawled). Same shape as the single scrape; the success banner counts
        the pages and the form resets to a limit of 10. */
    method Crawl(o: FetchOutcome<seq<ScrapedItem>>)
      modifies this`error, this`success, this`loading, this`crawlForm, this`requests
      ensures old(crawlForm.url) == "" ==>
                && error == "Please enter a URL"
                && success == old(success) && loading == old(loading)
                && crawlForm == old(crawlForm) && requests == old(requests)
      ensures old(crawlForm.url) != "" ==> !loading
      ensures old(crawlForm.url) != "" && o.Json? && o.success ==>
                && success == "Successfully crawled " + NatToString(|o.data|) + " pages!" && error == ""
                && crawlForm == DefaultCrawlForm
                && requests == old(requests) + [CrawlSite(old(crawlForm.url), old(crawlForm.limit)), ListData(1)]
      ensures old(crawlForm.url) != "" && !(o.Json? && o.success) ==>
                && success == "" && crawlForm == old(crawlForm)
                && requests == old(requests) + [CrawlSite(old(crawlForm.url), old(crawlForm.limit))]
      ensures old(crawlForm.url) != "" && o.Json? && !o.success ==> error == OrElse(o.error, "Crawling failed")
      ensures old(crawlForm.url) != "" && o.Failed? ==> error == "Error crawling website: " + o.errMessage
    {
      if crawlForm.url == "" {
        error := "Please enter a URL";
        return;
      }
      loading := true;
      error, success := "", "";
      requests := requests + [CrawlSite(crawlForm.url, crawlForm.limit)];
      match o {
      case Json(ok, pages, err) =>
        if ok {
          success := "Successfully crawled " + NatToString(|pages|) + " pages!";
          crawlForm := DefaultCrawlForm;
          BeginLoad(1);
        } else {
          error := OrElse(err, "Crawling failed");
        }
      case Failed(m) =>
        error := "Error crawling website: " + m;
      }
      loading := false;
    }

    /** `handleDelete(id)`, with `confirmed` the answer to the confirmation
        prompt and `o` the delete endpoint's answer. Declining changes
        nothing. Neither banner is cleared first, and no `finally` turns
        `loading` off, so a successful delete leaves the reload's `loading`. */
    method Delete(id: string, confirmed: bool, o: FetchOutcome<()>)
      modifies this`error, this`success, this`loading, this`requests
      ensures !confirmed ==>
                error == old(error) && success == old(success) && loading == old(loading) && requests == old(requests)
      ensures confirmed && o.Json? && o.success ==>
                && success == "Data deleted successfully!" && error == old(error) && loading
                && requests == old(requests) + [DeleteData(id), ListData(1)]
      ensures confirmed && !(o.Json? && o.success) ==>
                && success == old(success) && loading == old(loading)
                && requests == old(requests) + [DeleteData(id)]
      ensures confirmed && o.Json? && !o.success ==> error == OrElse(o.error, "Delete failed")
      ensures confirmed && o.Failed? ==> error == "Error deleting data: " + o.errMessage
    {
      if !confirmed {
        return;
      }
      requests := requests + [DeleteData(id)];
      match o
      case Json(ok, _, err) =>
        if ok {
          success := "Data deleted successfully!";
          BeginLoad(1);
        } else {
          error := OrElse(err, "Delete failed");
        }
      case Failed(m) =>
        error := "Error deleting data: " + m;
    }

    /** A click on an enabled pagination button: loads the neighbouring page. */
    method GoToPage(dir: Direction)
      requires PaginationShown(totalPages) && PageTarget(currentPage, totalPages, dir).Some?
      modifies this`loading, this`requests
      ensures loading
      ensures requests == old(requests) + [ListData(PageTarget(currentPage, totalPages, dir).value)]
    {
      var target := PageTarget(currentPage, totalPages, dir).value;
      BeginLoad(target);
    }
  }
}
