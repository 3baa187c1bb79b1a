/**
 * The `list_computers` tool: builds the first page URL from the page size and
 * runs the pagination loop over the vendor API's device inventory.
 */
module Agent {
  import opened Wrappers
  import opened Decimal
  import opened Pagination

  const BASE_URL: string := "https://api.amp.cisco.com/v1"

  /** Everything of the first URL before the page size. */
  const LIST_PREFIX: string := BASE_URL + "/computers?limit="

  const DEFAULT_MAX_PAGES: int := 3
  const DEFAULT_LIMIT_PER_PAGE: int := 50

  /** `f"{BASE_URL}/computers?limit={limit_per_page}"`. */
  function FirstUrl(limitPerPage: int): (url: string)
    ensures |url| >= |LIST_PREFIX| && url[..|LIST_PREFIX|] == LIST_PREFIX
  {
    LIST_PREFIX + IntToString(limitPerPage)
  }

  /** The run `list_computers(max_pages, limit_per_page)` performs against `source`. */
  function ListComputersRun(source: Source, maxPages: int, limitPerPage: int): Run {
    Walk(source, Some(FirstUrl(limitPerPage)), maxPages)
  }

  /**
   * The pagination loop. `requested` records the URLs passed to the server,
   * in order; it is not part of what the tool returns.
   */
  method ListComputers(source: Source, maxPages: int := DEFAULT_MAX_PAGES, limitPerPage: int := DEFAULT_LIMIT_PER_PAGE)
    returns (r: Result<Listing, FetchError>, ghost requested: seq<string>)
    ensures r == Outcome(ListComputersRun(source, maxPages, limitPerPage))
    ensures requested == ListComputersRun(source, maxPages, limitPerPage).visited
    ensures |requested| <= Bound(maxPages)
    ensures maxPages <= 0 ==> r == Ok(Listing([])) && requested == []
  {
    ghost var start: Cursor := Some(FirstUrl(limitPerPage));
    ghost var received: seq<Page> := [];
    requested := [];
    var results: seq<Value> := [];
    var url: Cursor := Some(FirstUrl(limitPerPage));
    var pages := 0;
    ghost var left := maxPages;
    while Truthy(url) && pages < maxPages
      invariant 0 <= pages && (maxPages > 0 ==> pages <= maxPages)
      invariant left == maxPages - pages
      invariant |requested| == |received| == pages
      invariant results == Flatten(received)
      invariant Walk(source, start, maxPages) == Join(requested, received, Walk(source, url, left))
      decreases maxPages - pages
    {
      var u := url.value;
      var res := Get(source, u);
      if res.Err? {
        WalkStepErr(source, url, left, requested, received);
        requested := requested + [u];
        r := Err(res.error);
        RequestsWithinBudget(source, start, maxPages);
        return;
      }
      var data := res.value;
      WalkStepOk(source, url, left, requested, received);
      requested := requested + [u];
      FlattenConcat(received, [data]);
      assert Flatten([data]) == PageItems(data) by {
        assert [data][1..] == [];
      }
      results := results + PageItems(data);
      received := received + [data];
      url := NextLink(data);
      pages := pages + 1;
      left := left - 1;
    }
    assert Walk(source, url, left) == Run([], [], None);
    assert Walk(source, start, maxPages) == Run(requested, received, None);
    r := Ok(Listing(results));
    RequestsWithinBudget(source, start, maxPages);
  }

  /**
   * The first request goes to the device inventory with the requested page
   * size, written so that the size can be read back from the URL.
   */
  lemma FirstRequestCarriesLimit(source: Source, maxPages: int, limitPerPage: int)
    requires maxPages > 0
    ensures var w := ListComputersRun(source, maxPages, limitPerPage);
      && |w.visited| > 0
      && w.visited[0] == FirstUrl(limitPerPage)
      && w.visited[0][..|LIST_PREFIX|] == LIST_PREFIX
      && ParseInt(w.visited[0][|LIST_PREFIX|..]) == Some(limitPerPage)
  {
    var url := FirstUrl(limitPerPage);
    assert url[|LIST_PREFIX|..] == IntToString(limitPerPage);
    IntToStringRoundTrip(limitPerPage);
  }

  /** With the default arguments, a server that always offers a next link is asked exactly three times. */
  lemma DefaultsFetchThreePages(source: Source)
    requires AlwaysOffersNext(source)
    ensures var w := ListComputersRun(source, DEFAULT_MAX_PAGES, DEFAULT_LIMIT_PER_PAGE);
      && w.failure.None?
      && |w.visited| == |w.pages| == 3
  {
    UnboundedServerFillsBudget(source, Some(FirstUrl(DEFAULT_LIMIT_PER_PAGE)), DEFAULT_MAX_PAGES);
  }

  /**
   * A collection of two pages, of 50 and 10 items, whose second page carries
   * no next link: two requests are made and the 60 items come back in order.
   */
  lemma TwoPagesThenNoCursor(source: Source, first: seq<Value>, second: seq<Value>, next: string)
    requires |first| == 50 && |second| == 10 && next != ""
    requires source(FirstUrl(50)) == Reply(200, Some(Page(Some(first), Some(Metadata(Some(Links(Some(next))))))))
    requires source(next) == Reply(200, Some(Page(Some(second), None)))
    ensures ListComputersRun(source, DEFAULT_MAX_PAGES, 50).visited == [FirstUrl(50), next]
    ensures Outcome(ListComputersRun(source, DEFAULT_MAX_PAGES, 50)) == Ok(Listing(first + second))
    ensures |first + second| == 60
  {
    var p2 := Page(Some(second), None);
    assert Walk(source, None, 1) == Run([], [], None);
    assert Walk(source, Some(next), 2) == Run([next], [p2], None);
    assert Flatten([p2]) == second by {
      assert [p2][1..] == [];
    }
  }
}
