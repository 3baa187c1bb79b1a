# Cisco Secure Endpoint device listing — pagination model

This project models the `list_computers` tool of a small adapter that exposes the
Cisco Secure Endpoint REST API as callable tools. The tool builds the first page URL
`https://api.amp.cisco.com/v1/computers?limit=<limit_per_page>` and then repeats a loop
while the cursor is truthy and fewer than `max_pages` pages have been fetched. Each pass
GETs the cursor, raises on an HTTP error status, appends the page's `data` list to the
results, and moves the cursor to `metadata.links.next`. The tool returns
`{"computers": results}`.

Files:

- `wrappers.dfy` — `Option` and `Result`.
- `decimal.dfy` — Python's `str(int)`, used for the page size in the first URL, and a parser that inverts it.
- `pagination.dfy` — the page, reply and error types, and one request (`Get`: GET, then `raise_for_status`, then `json`). `Walk` is the recursive specification "fetch up to `budget` pages from a cursor". `IsRun` is an independent step-by-step description of a run, and is proved equivalent to `Walk` in both directions. The loop's properties are stated as lemmas about `Walk`.
- `agent.dfy` — `BASE_URL`, the first URL, and the loop itself (`ListComputers`), a `while` loop proved equal to `Walk`. Also the lemma for the default arguments and a worked two-page example.

The definitions that model the source, each with what it computes:

- `Pagination.Truthy` (agent.py:18): the loop's `url` test; a cursor is followed only when present and not the empty string.
- `Pagination.IsHttpError` (agent.py:20): the statuses for which `raise_for_status` raises, 400 to 599.
- `Pagination.Get` (agent.py:19-21): one request. An unreachable server raises a connection error. An error status raises an HTTP error before the body is looked at. A body that does not decode raises a decoding error. Otherwise the request yields the decoded page.
- `Pagination.PageItems` (agent.py:22): `data.get("data", [])`, the page's item list or the empty list.
- `Pagination.NextLink` (agent.py:23): `metadata.links.next`, or nothing when any of the three keys is missing or `next` is null.
- `Pagination.Walk` (agent.py:14-24): the requests made, the pages received and the error raised, if any, when fetching up to `budget` pages from a cursor.
- `Pagination.Flatten` (agent.py:22): the pages' item lists concatenated in order.
- `Pagination.Outcome` (agent.py:26): the error of a failed run, or `{"computers": ...}` holding every received item.
- `Decimal.IntToString` (agent.py:15): the decimal text of the page size, with a minus sign when it is negative.
- `Agent.FirstUrl` (agent.py:8-15): `BASE_URL + "/computers?limit=" + str(limit_per_page)`.

The server is a total function `Source = string -> Reply`. It covers the transport, the
status code and the JSON decoding. A reply is `Unreachable` (the transport raises), or a
status with a body that does or does not decode to a page.

Facts about the code that the model keeps:

- `raise_for_status` raises only for statuses 400–599. A 1xx or 3xx reply whose body decodes to a page is accepted as a page.
- The tool returns only `{"computers": results}`; it reports no page count. The requested URLs are a ghost output of the model, so that their number can be stated.
- Neither `max_pages` nor `limit_per_page` is validated. With `max_pages <= 0` no request is made and the result is empty. The page size is written into the URL in Python's decimal notation, a minus sign included (see "## Left out" for very long numbers).

## Model

| member | source | states |
|---|---|---|
| `Decimal.NatToString` | agent.py:15 | the digits written for a non-negative page size are non-empty, all decimal digits, and start with `0` exactly when the number is 0 (no leading zeros) |
| `Decimal.ParseNatOfNatToString` | agent.py:15 | reading back the digits of a non-negative number gives that number |
| `Decimal.IntToStringRoundTrip` | agent.py:15 | parsing the formatted page size gives it back, for every integer, so distinct page sizes give distinct first URLs |
| `Pagination.WalkIsRun` | agent.py:14-24 | the specified run satisfies the step-by-step description: within budget, first request at the start cursor, each later one at the previous page's next link, every request but a failing last one returned its page, and it ended only on error, missing cursor or exhausted budget |
| `Pagination.RunIsWalk` | agent.py:14-24 | any run that satisfies the step-by-step description is the specified one |
| `Pagination.FlattenConcat` | agent.py:22 | extending the results with the items of more pages appends them after the items already collected |
| `Pagination.FlattenAtPage` | agent.py:22 | the items of page k appear contiguously in the result, after all items of earlier pages and before all items of later pages, with nothing reordered or dropped |
| `Pagination.PageWithoutDataAddsNothing` | agent.py:22 | a page with no `data` key contributes no items: the result equals that of the other pages |
| `Pagination.RequestsWithinBudget` | agent.py:16-24 | at most `max(max_pages, 0)` requests are made, and no more pages are received than requests made |
| `Pagination.FollowsNextLinks` | agent.py:15-23 | a request is made exactly when the start cursor is truthy and the budget is positive; the first request is the start cursor; each later request is exactly the previous page's next link, which was truthy |
| `Pagination.StopsWhenNoNextLink` | agent.py:18-23 | a received page whose next link is missing, null or empty is the last request of the run, so the run stays within budget |
| `Pagination.ShortRunHasNoNextLink` | agent.py:18-23 | a run that raised nothing and made fewer requests than the budget ended on a page without a next link |
| `Pagination.FailureIsAllOrNothing` | agent.py:19-26 | when a request fails it is the last one, all earlier requests succeeded, the error is the one that request raised, and the call raises that error and returns no items |
| `Pagination.SuccessReturnsEveryPage` | agent.py:18-26 | a call that returns has received one page per request and returns the in-order concatenation of their items |
| `Pagination.UnboundedServerFillsBudget` | agent.py:18-24 | against a server that always answers with a page and a next link, exactly `max(max_pages, 0)` pages are fetched and nothing is raised |
| `Agent.FirstUrl` | agent.py:8-15 | the first URL begins with `https://api.amp.cisco.com/v1/computers?limit=`; what follows is the page size (see `Agent.FirstRequestCarriesLimit`) |
| `Agent.ListComputers` | agent.py:12-26 | the loop returns what the specification `Walk` from the first URL with budget `max_pages` returns, requests exactly the URLs that run visits, makes at most `max(max_pages, 0)` requests, and makes none and returns `{"computers": []}` when `max_pages <= 0` |
| `Agent.FirstRequestCarriesLimit` | agent.py:15 | with a positive page bound the first request is the inventory URL, and the page size can be read back from it |
| `Agent.DefaultsFetchThreePages` | agent.py:12-18 | with the defaults `max_pages=3` and `limit_per_page=50`, a server that always offers a next link receives exactly three requests and nothing is raised |
| `Agent.TwoPagesThenNoCursor` | agent.py:12-26 | a collection of 50 then 10 items, with no next link on the second page, takes two requests and returns the 60 items in order |

## Left out

- HTTP transport: `requests.get`, the Basic-auth tuple and the `Accept` header (agent.py:9, 19). A request is the function `Source` from URL to reply. Timeouts, redirects and retries are the transport's business, and the code adds none.
- JSON decoding (agent.py:21). Only well-typed page shapes are modelled: `data` is a list or absent, and `metadata`, `links` and `next` are present or absent. A `next` of `null` is treated as absent. Ill-typed shapes have Python-specific outcomes, and the model does not cover them. A `metadata` or `links` of `null` raises `AttributeError`. A `data` of `null` raises `TypeError`. A string or object `data` would be iterated by `extend`.
- Pagination.GetOutcomes: the exception raised on an error status carries only the URL and status, not the response object. Decoding failures are one error kind.
- Credential loading from environment variables (agent.py:6-7). This is process I/O, and the values never influence the loop.
- The tool-hosting decorators and `main` (agent.py:11, 28-30). They come from a tool-hosting library that is not part of this model.
- Event listing and device isolation tools: agent.py does not contain them.
- JSON item values are passed through untouched. Their numbers are modelled as integers, because the model never inspects items.
- Agent.FirstUrl: Python 3.11 and later (and the 3.7.14, 3.8.14, 3.9.14 and 3.10.7 backports) refuse to format an int longer than 4300 decimal digits and raise `ValueError` at agent.py:15 before any request. The model formats every integer and goes on fetching, because that limit depends on the interpreter version and its settings.
- Pagination.FailureIsAllOrNothing: the `url` field of an error is the model's own record of which request failed. Python's exceptions carry no such field. `raise_for_status` names the response's final URL, which can differ after a redirect. The decoding error carries no URL at all.
