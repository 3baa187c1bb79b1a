/**
 * The cursor-following pagination of `list_computers`: what one request
 * yields, and a recursive specification of "fetch up to `budget` pages
 * starting at a cursor", with the properties the loop promises.
 */
module Pagination {
  import opened Wrappers

  /** A JSON value as decoded by the HTTP client; item records pass through unchanged. */
  datatype Value =
    | Null
    | Bool(b: bool)
    | Number(n: int)
    | String(s: string)
    | Array(elems: seq<Value>)
    | Object(fields: map<string, Value>)

  /** `metadata.links`: `next` is `None` when the key is absent or null. */
  datatype Links = Links(next: Option<string>)

  /** `metadata`, whose `links` object may be absent. */
  datatype Metadata = Metadata(links: Option<Links>)

  /** A decoded page: the `data` list and the `metadata` object, each possibly absent. */
  datatype Page = Page(data: Option<seq<Value>>, metadata: Option<Metadata>)

  /** What the server does with a GET: no answer at all, or a status with a body that decodes to a page or not. */
  datatype Reply = Unreachable | Reply(status: int, body: Option<Page>)

  /**
   * The exceptions a request can raise. `url` records which request raised it;
   * it is bookkeeping of the model, not a field of Python's exceptions.
   */
  datatype FetchError =
    | ConnectionError(url: string)
    | HttpError(url: string, status: int)
    | DecodeError(url: string)

  /** The server, as a total function from URL to reply. */
  type Source = string -> Reply

  /** The loop's `url`: a string or `None`. */
  type Cursor = Option<string>

  /** Python truthiness of `url`: present and not the empty string. */
  predicate Truthy(c: Cursor) {
    c.Some? && c.value != ""
  }

  /** `data.get("data", [])`. */
  function PageItems(p: Page): seq<Value> {
    if p.data.Some? then p.data.value else []
  }

  /** `data.get("metadata", {}).get("links", {}).get("next")`. */
  function NextLink(p: Page): Cursor {
    match p.metadata
    case None => None
    case Some(m) =>
      match m.links
      case None => None
      case Some(l) => l.next
  }

  /** The statuses for which `raise_for_status` raises: client and server errors. */
  predicate IsHttpError(status: int) {
    400 <= status < 600
  }

  /** One request: `requests.get`, then `raise_for_status`, then `json`. */
  function Get(source: Source, url: string): Result<Page, FetchError> {
    match source(url)
    case Unreachable => Err(ConnectionError(url))
    case Reply(status, body) =>
      if IsHttpError(status) then Err(HttpError(url, status))
      else if body.None? then Err(DecodeError(url))
      else Ok(body.value)
  }

  /**
   * A request raises an error naming its URL; an error status raises before
   * the body is looked at; otherwise the request succeeds exactly when the body
   * decodes to a page, and yields that page.
   */
  lemma GetOutcomes(source: Source, url: string)
    ensures Get(source, url).Err? ==> Get(source, url).error.url == url
    ensures source(url).Reply? && IsHttpError(source(url).status) ==> Get(source, url) == Err(HttpError(url, source(url).status))
    ensures Get(source, url).Ok? <==> source(url).Reply? && !IsHttpError(source(url).status) && source(url).body.Some?
    ensures Get(source, url).Ok? ==> source(url).body == Some(Get(source, url).value)
  {
  }

  /**
   * The course of a call: the URLs requested in order, the pages received,
   * and the error that ended it, if any.
   */
  datatype Run = Run(visited: seq<string>, pages: seq<Page>, failure: Option<FetchError>)

  /** The most pages a budget allows: `pages < max_pages` never holds when `max_pages <= 0`. */
  function Bound(budget: int): nat {
    if budget > 0 then budget else 0
  }

  /** Fetch up to `budget` pages, starting at `cursor` and following each page's next link. */
  function Walk(source: Source, cursor: Cursor, budget: int): Run
    decreases Bound(budget)
  {
    if !Truthy(cursor) || budget <= 0 then Run([], [], None)
    else
      var url := cursor.value;
      match Get(source, url)
      case Err(e) => Run([url], [], Some(e))
      case Ok(p) =>
        var rest := Walk(source, NextLink(p), budget - 1);
        Run([url] + rest.visited, [p] + rest.pages, rest.failure)
  }

  /** A run that begins with the given requests and pages and continues as `rest`. */
  function Join(visited: seq<string>, pages: seq<Page>, rest: Run): Run {
    Run(visited + rest.visited, pages + rest.pages, rest.failure)
  }

  /** One successful step of the loop: the page is received and its next link becomes the cursor. */
  lemma WalkStepOk(source: Source, cursor: Cursor, budget: int, visited: seq<string>, pages: seq<Page>)
    requires Truthy(cursor) && budget > 0 && Get(source, cursor.value).Ok?
    ensures var p := Get(source, cursor.value).value;
      Join(visited, pages, Walk(source, cursor, budget))
        == Join(visited + [cursor.value], pages + [p], Walk(source, NextLink(p), budget - 1))
  {
  }

  /** A failing step ends the run with that request's error. */
  lemma WalkStepErr(source: Source, cursor: Cursor, budget: int, visited: seq<string>, pages: seq<Page>)
    requires Truthy(cursor) && budget > 0 && Get(source, cursor.value).Err?
    ensures Join(visited, pages, Walk(source, cursor, budget))
        == Run(visited + [cursor.value], pages, Some(Get(source, cursor.value).error))
  {
  }

  /** The concatenation, in order, of the pages' `data` lists. */
  function Flatten(pages: seq<Page>): seq<Value> {
    if pages == [] then [] else PageItems(pages[0]) + Flatten(pages[1..])
  }

  /** What the call returns: `{"computers": results}`. */
  datatype Listing = Listing(computers: seq<Value>)

  /** A run that ended in an error raises it; otherwise it returns every received item. */
  function Outcome(w: Run): Result<Listing, FetchError> {
    match w.failure
    case Some(e) => Err(e)
    case None => Ok(Listing(Flatten(w.pages)))
  }

  /**
   * An independent, step-by-step description of a run: every request is the
   * start cursor or the previous page's next link, every request but a failing
   * last one returned its page, no more than the budget was spent, and the run
   * ended only on an error, on an exhausted cursor or on an exhausted budget.
   */
  ghost predicate IsRun(source: Source, start: Cursor, budget: int, w: Run) {
    var n := |w.visited|;
    && n <= Bound(budget)
    && |w.pages| == (if w.failure.Some? then n - 1 else n)
    && (n == 0 ==> w.failure.None? && (!Truthy(start) || budget <= 0))
    && (n > 0 ==> Truthy(start) && w.visited[0] == start.value)
    && (forall i {:trigger w.pages[i]} :: 0 <= i < |w.pages| ==> Get(source, w.visited[i]) == Ok(w.pages[i]))
    && (forall i {:trigger w.pages[i]} :: 0 <= i < n - 1 ==> Truthy(NextLink(w.pages[i])) && w.visited[i + 1] == NextLink(w.pages[i]).value)
    && (w.failure.Some? ==> n > 0 && Get(source, w.visited[n - 1]) == Err(w.failure.value))
    && (w.failure.None? && n > 0 ==> n == budget || !Truthy(NextLink(w.pages[n - 1])))
  }

  /** One unfolding of the specification after a successful request. */
  lemma WalkCons(source: Source, cursor: Cursor, budget: int)
    requires Truthy(cursor) && budget > 0 && Get(source, cursor.value).Ok?
    ensures var p := Get(source, cursor.value).value;
      var rest := Walk(source, NextLink(p), budget - 1);
      Walk(source, cursor, budget) == Run([cursor.value] + rest.visited, [p] + rest.pages, rest.failure)
  {
  }

  /** A received page followed by a run from its next link is a run from the page's URL. */
  lemma ConsIsRun(source: Source, start: Cursor, budget: int, p: Page, rest: Run)
    requires Truthy(start) && budget > 0 && Get(source, start.value) == Ok(p)
    requires IsRun(source, NextLink(p), budget - 1, rest)
    ensures IsRun(source, start, budget, Run([start.value] + rest.visited, [p] + rest.pages, rest.failure))
  {
    var w := Run([start.value] + rest.visited, [p] + rest.pages, rest.failure);
    forall i {:trigger w.pages[i]} | 0 <= i < |w.pages|
      ensures Get(source, w.visited[i]) == Ok(w.pages[i])
    {
      if i > 0 {
        assert w.visited[i] == rest.visited[i - 1] && w.pages[i] == rest.pages[i - 1];
      }
    }
    forall i {:trigger w.pages[i]} | 0 <= i < |w.visited| - 1
      ensures Truthy(NextLink(w.pages[i])) && w.visited[i + 1] == NextLink(w.pages[i]).value
    {
      if i > 0 {
        assert w.visited[i + 1] == rest.visited[i] && w.pages[i] == rest.pages[i - 1];
      }
    }
    if rest.failure.Some? {
      assert w.visited[|w.visited| - 1] == rest.visited[|rest.visited| - 1];
    }
    if rest.failure.None? && |rest.visited| > 0 {
      assert w.pages[|w.pages| - 1] == rest.pages[|rest.pages| - 1];
    }
  }

  /** The recursive specification meets the step-by-step description. */
  lemma {:induction false} WalkIsRun(source: Source, start: Cursor, budget: int)
    ensures IsRun(source, start, budget, Walk(source, start, budget))
    decreases Bound(budget)
  {
    if Truthy(start) && budget > 0 && Get(source, start.value).Ok? {
      var p := Get(source, start.value).value;
      WalkIsRun(source, NextLink(p), budget - 1);
      ConsIsRun(source, start, budget, p, Walk(source, NextLink(p), budget - 1));
      WalkCons(source, start, budget);
    }
  }

  /** Dropping the first request of a run with a received first page leaves a run from that page's next link. */
  lemma TailIsRun(source: Source, start: Cursor, budget: int, w: Run)
    requires IsRun(source, start, budget, w) && |w.pages| > 0
    ensures IsRun(source, NextLink(w.pages[0]), budget - 1, Run(w.visited[1..], w.pages[1..], w.failure))
  {
    var rest := Run(w.visited[1..], w.pages[1..], w.failure);
    forall i {:trigger rest.pages[i]} | 0 <= i < |rest.pages|
      ensures Get(source, rest.visited[i]) == Ok(rest.pages[i])
    {
      assert rest.visited[i] == w.visited[i + 1] && rest.pages[i] == w.pages[i + 1];
    }
    forall i {:trigger rest.pages[i]} | 0 <= i < |rest.visited| - 1
      ensures Truthy(NextLink(rest.pages[i])) && rest.visited[i + 1] == NextLink(rest.pages[i]).value
    {
      assert rest.visited[i + 1] == w.visited[i + 2] && rest.pages[i] == w.pages[i + 1];
    }
    if |rest.visited| > 0 {
      assert rest.visited[0] == w.visited[1];
      assert rest.visited[|rest.visited| - 1] == w.visited[|w.visited| - 1];
      if rest.failure.None? {
        assert rest.pages[|rest.pages| - 1] == w.pages[|w.pages| - 1];
      }
    }
  }

  /** A run whose first page was received and whose remainder is specified is itself specified. */
  lemma ConsIsWalk(source: Source, start: Cursor, budget: int, w: Run)
    requires Truthy(start) && budget > 0 && |w.visited| > 0 && |w.pages| > 0
    requires w.visited[0] == start.value && Get(source, start.value) == Ok(w.pages[0])
    requires Run(w.visited[1..], w.pages[1..], w.failure) == Walk(source, NextLink(w.pages[0]), budget - 1)
    ensures w == Walk(source, start, budget)
  {
    WalkCons(source, start, budget);
    assert w.visited == [start.value] + w.visited[1..];
    assert w.pages == [w.pages[0]] + w.pages[1..];
  }

  /** Conversely, the step-by-step description admits no run but the specified one. */
  lemma {:induction false} RunIsWalk(source: Source, start: Cursor, budget: int, w: Run)
    requires IsRun(source, start, budget, w)
    ensures w == Walk(source, start, budget)
    decreases Bound(budget)
  {
    if |w.visited| > 0 && |w.pages| > 0 {
      var p := w.pages[0];
      assert Get(source, w.visited[0]) == Ok(p);
      TailIsRun(source, start, budget, w);
      RunIsWalk(source, NextLink(p), budget - 1, Run(w.visited[1..], w.pages[1..], w.failure));
      ConsIsWalk(source, start, budget, w);
    } else if |w.visited| > 0 {
      assert Get(source, start.value) == Err(w.failure.value);
    }
  }

  /** Splitting the pages splits the items: the basis of in-order accumulation. */
  lemma {:induction false} FlattenConcat(a: seq<Page>, b: seq<Page>)
    ensures Flatten(a + b) == Flatten(a) + Flatten(b)
  {
    if a == [] {
      assert a + b == b;
    } else {
      assert (a + b)[0] == a[0];
      assert (a + b)[1..] == a[1..] + b;
      FlattenConcat(a[1..], b);
    }
  }

  /**
   * The items of page `k` appear contiguously, after every item of the pages
   * before it and before every item of the pages after it.
   */
  lemma {:induction false} FlattenAtPage(pages: seq<Page>, k: nat)
    requires k < |pages|
    ensures Flatten(pages) == Flatten(pages[..k]) + PageItems(pages[k]) + Flatten(pages[k + 1..])
  {
    var tail := [pages[k]] + pages[k + 1..];
    assert pages == pages[..k] + tail;
    FlattenConcat(pages[..k], tail);
    assert tail[1..] == pages[k + 1..];
    assert Flatten(tail) == PageItems(pages[k]) + Flatten(pages[k + 1..]);
  }

  /** A page without a `data` key adds nothing: the items are those of the other pages. */
  lemma {:induction false} PageWithoutDataAddsNothing(pages: seq<Page>, k: nat)
    requires k < |pages| && pages[k].data.None?
    ensures Flatten(pages) == Flatten(pages[..k] + pages[k + 1..])
  {
    FlattenAtPage(pages, k);
    FlattenConcat(pages[..k], pages[k + 1..]);
  }

  /** At most `budget` requests are made, and none when the budget is not positive. */
  lemma RequestsWithinBudget(source: Source, start: Cursor, budget: int)
    ensures |Walk(source, start, budget).visited| <= Bound(budget)
    ensures |Walk(source, start, budget).pages| <= |Walk(source, start, budget).visited|
  {
    WalkIsRun(source, start, budget);
  }

  /**
   * The first request is the start cursor, and each later one is exactly the
   * next link of the page before it.
   */
  lemma FollowsNextLinks(source: Source, start: Cursor, budget: int)
    ensures var w := Walk(source, start, budget);
      && (|w.visited| > 0 <==> Truthy(start) && budget > 0)
      && (|w.visited| > 0 ==> w.visited[0] == start.value)
      && forall i :: 0 <= i < |w.visited| - 1 ==>
           i < |w.pages| && Truthy(NextLink(w.pages[i])) && w.visited[i + 1] == NextLink(w.pages[i]).value
  {
    WalkIsRun(source, start, budget);
  }

  /**
   * A run that raised nothing but stayed under budget ended because its last
   * page offered no next link; and a page without one is always the last.
   */
  lemma StopsWhenNoNextLink(source: Source, start: Cursor, budget: int, k: nat)
    requires var w := Walk(source, start, budget); k < |w.pages| && !Truthy(NextLink(w.pages[k]))
    ensures var w := Walk(source, start, budget); |w.visited| == k + 1 && |w.visited| <= Bound(budget)
  {
    WalkIsRun(source, start, budget);
  }

  /** A run that raised nothing and fetched fewer pages than the budget saw no next link on its last page. */
  lemma ShortRunHasNoNextLink(source: Source, start: Cursor, budget: int)
    requires var w := Walk(source, start, budget); w.failure.None? && 0 < |w.visited| < budget
    ensures var w := Walk(source, start, budget); !Truthy(NextLink(w.pages[|w.pages| - 1]))
  {
    WalkIsRun(source, start, budget);
  }

  /**
   * All or nothing: a failing request is the last one, every request before it
   * succeeded, and the call raises its error without returning any item.
   */
  lemma FailureIsAllOrNothing(source: Source, start: Cursor, budget: int)
    requires Walk(source, start, budget).failure.Some?
    ensures var w := Walk(source, start, budget);
      && |w.visited| > 0
      && |w.pages| == |w.visited| - 1
      && Get(source, w.visited[|w.visited| - 1]) == Err(w.failure.value)
      && w.failure.value.url == w.visited[|w.visited| - 1]
      && (forall i :: 0 <= i < |w.pages| ==> Get(source, w.visited[i]) == Ok(w.pages[i]))
      && Outcome(w) == Err(w.failure.value)
  {
    WalkIsRun(source, start, budget);
    var w := Walk(source, start, budget);
    GetOutcomes(source, w.visited[|w.visited| - 1]);
  }

  /** A successful call returns the items of every page it requested, in order. */
  lemma SuccessReturnsEveryPage(source: Source, start: Cursor, budget: int)
    requires Outcome(Walk(source, start, budget)).Ok?
    ensures var w := Walk(source, start, budget);
      && w.failure.None?
      && |w.pages| == |w.visited|
      && (forall i :: 0 <= i < |w.pages| ==> Get(source, w.visited[i]) == Ok(w.pages[i]))
      && Outcome(w).value.computers == Flatten(w.pages)
  {
    WalkIsRun(source, start, budget);
  }

  /** A server whose every reply is a page with a next link. */
  ghost predicate AlwaysOffersNext(source: Source) {
    forall url :: Get(source, url).Ok? && Truthy(NextLink(Get(source, url).value))
  }

  /** Against such a server the budget alone stops the loop: exactly `budget` pages are fetched. */
  lemma {:induction false} UnboundedServerFillsBudget(source: Source, start: Cursor, budget: int)
    requires AlwaysOffersNext(source) && Truthy(start)
    ensures Walk(source, start, budget).failure.None?
    ensures |Walk(source, start, budget).visited| == |Walk(source, start, budget).pages| == Bound(budget)
    decreases Bound(budget)
  {
    if budget > 0 {
      var p := Get(source, start.value).value;
      UnboundedServerFillsBudget(source, NextLink(p), budget - 1);
    }
  }
}
