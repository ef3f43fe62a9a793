# Literature review relay and search backend, modelled in Dafny

The system has two parts:

- An Express relay (`FrontEnd/server.js`). It validates browser requests to `/search`, `/generate-review` (a PDF upload) and `/generate-review-url` (a PDF URL). It forwards each accepted request to a Flask backend, then mirrors the backend's reply or turns the axios failure into a status and an `{error}` body.
- The Flask backend's `/search` handler (`app.py`). It calls `search_papers` (`semantic_api.py`), which queries the Semantic Scholar paper search with up to six attempts and a growing backoff. The handler then filters, projects and truncates the papers.

Each piece is a Dafny module. Network calls are replaced by inputs:

- a `CallOutcome` for the relay's axios call;
- one `AttemptOutcome` per Semantic Scholar attempt.

Files:

- `values.dfy` (`Values`): decoded JSON, Python and JavaScript truthiness, `dict.get`, and the `{"error": …}` body.
- `relay.dfy` (`Relay`): `FrontEnd/server.js`.
  - The validation steps and the error classifier are functions.
  - `/search` and `/generate-review` are methods. `/search` builds the target URL with a local `+=`. `/generate-review` fills a `FormData` object through `Append`.
  - `/generate-review-url` is a function.
- `semantic_api.dfy` (`SemanticApi`): `search_papers`.
  - `SearchPapers` is the attempt loop. It is proved equal to `ExpectedRun`, which says the same thing without a loop: the first attempt that is not retried decides.
  - `ProcessPapers` is the `pdfUrl` pass. It is proved equal to `PapersIn`.
- `backend_app.dfy` (`BackendApp`): `handle_search`.
  - `FilterAndProject` is the filter/project/truncate loop. It is proved equal to `Take(Selected(papers, filter), limit)`.
  - `Selected` is a recursive reference definition. Lemmas give its order, content and key properties.

Behaviour that follows from the code and is easy to miss:

- `parseInt(limit, 10) || 15` in the relay replaces only 0 and NaN by 15. A negative limit is kept and then rejected with 400 (`Relay.ValidateSearch`).
- JavaScript truthiness: an empty array or object counts as a query in the relay.
- Python truthiness: the backend treats empty lists and dicts as false.
- Python's `bool` is a subclass of `int`, so `"limit": true` passes `isinstance(limit, int)`. It counts as 1 in `papers_added >= limit` and in `limit * 2`. Without the PDF filter the value `True` itself is passed to `search_papers`, and that is what goes into the Semantic Scholar query string. `SearchParams` keeps both the value and the number it counts as.
- `search_papers` lets some exceptions escape. This happens when the response body is not a JSON object, when `data` cannot be iterated or yields non-dicts, and when a paper is not a dict. `handle_search` then answers 500. `SearchResult.Raised` models this.
- A body that is not valid JSON makes `response.json()` raise `requests.exceptions.JSONDecodeError`. This is a `RequestException` in requests 2.27 and later, so `search_papers` returns `None`.

Some definitions carry no contract of their own. What they mean is stated by the members in the table that use them:

- `SemanticApi.Retryable` (semantic_api.py:54-72, 98-105): by `RetryableFailureIsRetried`, `GivesUpAfterLastAttempt` and `ClientErrorStopsAtOnce`.
- `SemanticApi.Decisive` (semantic_api.py:74-111) and `SemanticApi.PapersIn` (semantic_api.py:78-96): by `ClientErrorStopsAtOnce`, `MalformedBodyOutcome`, `SuccessKeepsPapers` and `ProcessPapers`.
- `SemanticApi.Grown` and `SemanticApi.BackoffAfter` (semantic_api.py:61, 71, 104): by `BackoffClosedForm` and `WaitsGrow`.
- `Relay.DataError` (FrontEnd/server.js:272-273): by `ResponseError`.
- `BackendApp.Kept` (app.py:72-82): by `Selected`, `FilterAndProject` and `SelectedIsSubsequence`.

## Model

| member | source | states |
|---|---|---|
| `Relay.NatToString` | FrontEnd/server.js:110 | the status rendered in the fallback message is a non-empty string of decimal digits without a leading zero |
| `Relay.DecimalRoundTrip` | FrontEnd/server.js:274 | reading the rendered status back as a decimal number gives the status |
| `Relay.SearchFallbackNamesStatus` | FrontEnd/server.js:108-110 | in `/search`, a backend response without a truthy `data.error` is answered with the backend's status and `"Flask API error (<status>)"` |
| `Relay.StatusMessage` | FrontEnd/server.js:273-274 | the fallback message is the route's prefix, then `" ("`, then digits that denote the backend status, then `")"` |
| `Relay.ResponseError` | FrontEnd/server.js:272-274 | the error value is the backend's own `data.error` verbatim when truthy, else the fallback naming the status; either way it is truthy |
| `Relay.ClassifyError` | FrontEnd/server.js:259-306 | the body is always exactly `{error: <truthy value>}`; a response's status is mirrored; with no response, `request` gives 502 with the route's "could not connect" message, else code `ECONNABORTED` gives 504 with its "timed out" message, else 500 with its internal-error message |
| `Relay.ResponseTakesPrecedence` | FrontEnd/server.js:259-275 | once a response is present, `request` and `code` have no influence on the reply |
| `Relay.GatewayTimeoutOnlyWithoutRequest` | FrontEnd/server.js:276-293 | without a response, the status is 504 exactly when `request` is absent and the code is `ECONNABORTED` |
| `Relay.ClassifiersAgreeOnStatus` | FrontEnd/server.js:104-122 | the inline classifier of `/search` and `handleFlaskError` choose the same status for every error; they differ only in messages |
| `Relay.Respond` | FrontEnd/server.js:97-123 | a resolved backend call is passed through with the backend's status and body unchanged; a failed one gets exactly the route's `ClassifyError` reply, so a timeout gives 504 and a request with no response 502 |
| `Relay.ServeUi` | FrontEnd/server.js:35-48 | the UI file is sent exactly when it exists, otherwise 404 `"UI file not found."` |
| `Relay.EffectiveLimit` | FrontEnd/server.js:65 | the limit is the parsed number when it is non-zero, and exactly 15 when the parse is NaN or 0 |
| `Relay.ValidateSearch` | FrontEnd/server.js:60-72 | accepted exactly when the query is truthy and the effective limit is in 1..100; a falsy query gives 400 `"Query parameter is required."` first; a negative or over-100 parsed limit gives 400 `"Limit must be between 1 and 100."` |
| `Relay.HandleSearch` | FrontEnd/server.js:51-124 | a rejected request makes no forwarding call; an accepted one posts exactly `{query, limit}` to `base + "/search"`, with `?require_pdf=true` appended exactly when `requirePdf` is the boolean `true`, with a 45 s timeout; the reply is `Respond` of the call's outcome, so a success is the backend's reply and a failure is classified by `ClassifyError` |
| `Relay.FormData.Append` | FrontEnd/server.js:163-170 | appending adds exactly one part, with its name, content, filename and content type, after the existing ones |
| `Relay.InvalidFileTypeMessage` | FrontEnd/server.js:151 | the rejection message contains the offending mimetype |
| `Relay.HandleGenerateReview` | FrontEnd/server.js:130-192 | no file gives 400 `"No PDF file uploaded."` before any type check; a mimetype other than `application/pdf` gives 400 naming it; otherwise one multipart field `pdfFile` with the buffer, original filename and type is posted to `/process-and-generate` with a 180 s timeout, and a successful reply is mirrored |
| `Relay.GenerateReviewUrl` | FrontEnd/server.js:195-251 | a call is forwarded exactly when `pdfUrl` is a non-empty string that parses as a URL; a falsy or non-string value gives the "missing or invalid" 400 whatever the parse would say; a parse failure gives the "invalid URL format" 400; the body forwarded is `{pdfUrl}` |
| `SemanticApi.PdfUrlOf` | semantic_api.py:85-88 | `pdfUrl` is truthy exactly when `openAccessPdf` is a dict with a truthy `url`, and is then that `url`; otherwise it is `None` |
| `SemanticApi.WithPdfUrl` | semantic_api.py:86-88 | the processed paper has the original keys plus `pdfUrl`, and every other key keeps its value |
| `SemanticApi.ProcessPapers` | semantic_api.py:79-96 | the loop's result equals `PapersIn(data)`: for a list of dicts, the same papers in the same order, each with `pdfUrl` set; an exception for a non-dict paper or a `data` value that cannot be iterated |
| `SemanticApi.FirstDecisive` | semantic_api.py:48-111 | the index returned is that of the first attempt that is not retried: all earlier ones are retryable and it is not |
| `SemanticApi.Waits` | semantic_api.py:58-61 | one base wait for each retried attempt, the `i`-th equal to `current_backoff` after `i` retries |
| `SemanticApi.ExpectedRun` | semantic_api.py:46-115 | between 1 and 6 attempts are made, and there is one wait fewer than attempts |
| `SemanticApi.SearchPapers` | semantic_api.py:20-115 | the attempt loop's result, attempt count, waits and final backoff are exactly `ExpectedRun(outcomes)`; every attempt sends the same endpoint, query, limit value as passed in, field list and 25 s timeout |
| `SemanticApi.RetryableFailureIsRetried` | semantic_api.py:54-105 | a 429, a status of 500 or more (lines 54-72) or a timeout (lines 98-105) on any attempt but the last is followed by another attempt |
| `SemanticApi.GivesUpAfterLastAttempt` | semantic_api.py:54-115 | six retryable failures give `None` after exactly six attempts and five waits |
| `SemanticApi.ClientErrorStopsAtOnce` | semantic_api.py:74-111 | any other 4xx status or any other `RequestException` returns `None` at that attempt, with no further attempts |
| `SemanticApi.FirstDecisiveIs` | semantic_api.py:48-111 | when every attempt before `n` was retried and attempt `n` is not, attempt `n` is the one that decides the call |
| `SemanticApi.MalformedBodyOutcome` | semantic_api.py:74-111 | a non-error response ends the call at that attempt; a body that is not valid JSON gives `None`, and a valid body that is not a JSON object raises |
| `SemanticApi.SuccessKeepsPapers` | semantic_api.py:78-96 | a successful response yields the papers of `data` in order, each with `pdfUrl`; a response without `data` is a success with an empty list, not `None` |
| `SemanticApi.BackoffClosedForm` | semantic_api.py:46-104 | `current_backoff` is 1 × 1.5 to the number of retried 429/5xx responses × 2 to the number of retried timeouts |
| `SemanticApi.WaitsGrow` | semantic_api.py:58-71 | the base waits are at least one second and strictly grow from one retry to the next |
| `BackendApp.PositiveIntLimit` | app.py:40-42 | a limit is accepted exactly when it is a positive integer, which it keeps, or the boolean `true`, which counts as 1 |
| `BackendApp.ValidateSearch` | app.py:28-42 | non-JSON is rejected first with 400 `"Request must be JSON"`, then a falsy query with 400 `"Missing 'query' in request data"`, then a limit that is not a positive integer with 400 `"'limit' must be a positive integer"`; a JSON request whose body does not decode gets Flask's own 400, and one whose body is not a dict gets a 500 from `data.get`; an accepted request carries the body's own query and limit value, the limit counting as at least 1 and defaulting to 10 when absent |
| `BackendApp.RequirePdfFilter` | app.py:46 | an absent `require_pdf` leaves the filter off |
| `BackendApp.RequirePdfSpellings` | app.py:46 | the filter is on exactly for `true` spelled in any mix of upper and lower case |
| `BackendApp.AuthorNames` | app.py:79-82 | the names are all truthy and no more than the authors; the comprehension raises exactly when some truthy author is not a dict |
| `BackendApp.AuthorNamesOfOne` | app.py:80-81 | over one author: its `name` when the author is truthy with a truthy `name`; nothing when the author is falsy or a dict without a truthy `name`; an exception when it is truthy but not a dict |
| `BackendApp.AuthorNamesAppend` | app.py:80-81 | the names over `a + b` are the names over `a` followed by those over `b`, and it raises when either part does; with `AuthorNamesOfOne` this fixes every name and the order |
| `BackendApp.Project` | app.py:77-92 | an entry has exactly the keys `title`, `abstract`, `year`, `authors` and `pdfUrl`, copied from the paper; `authors` is `AuthorNames` of the paper's list, and `[]` when the paper's `authors` is not a list; the paper is skipped exactly when the names comprehension raises |
| `BackendApp.Selected` | app.py:67-92 | the reference definition of the loop without its limit: the projections of the papers that are neither filtered out nor raise, in order; there are no more of them than papers |
| `BackendApp.FilterAndProject` | app.py:67-96 | the loop's output equals the first `limit` entries of `Selected`, so it has at most `limit` entries; every entry has the five keys; with the filter on, every entry has a truthy `pdfUrl` |
| `BackendApp.SelectedIsSubsequence` | app.py:69-91 | the entries are the projections of kept papers at strictly increasing positions |
| `BackendApp.OutputIsSubsequence` | app.py:67-96 | the truncated output is an order-preserving subsequence of the fetched papers |
| `BackendApp.SelectedEntries` | app.py:73-90 | every entry has exactly the five keys, and with the filter on a truthy `pdfUrl` |
| `BackendApp.UnfilteredKeepsAll` | app.py:69-92 | without the filter, and when no paper raises, every paper is kept in order |
| `BackendApp.UnfilteredOutputIsPrefix` | app.py:94-96 | without the filter, and when no paper raises, the output is the first `min(limit, n)` papers projected |
| `BackendApp.SearchReply` | app.py:56-106 | an exception from `search_papers` gives 500, `None` gives 503, and a list gives 200 with the truncated, projected papers |
| `BackendApp.HandleSearch` | app.py:16-106 | a rejected request sends nothing upstream; an accepted one calls `search_papers` once; every attempt of that call sends this request, for the query and for twice the limit when filtering or the body's own limit value otherwise; `ExpectedRun(upstream).attempts` of them are made, and the reply follows `ExpectedRun(upstream).result` |

## Left out

- HTTP plumbing is not modelled: Express, Flask, multer routing and middleware, CORS, `app.listen` and `app.run`. The parsed body, the uploaded file and the query argument are inputs.
- The backend base URL is a parameter. dotenv and environment configuration are not modelled.
- The 50 MB upload cap is not modelled. multer enforces it, and multer is not part of this model.
- A multer error for a file under another field name is not modelled.
- The network calls are not modelled: `axios.post`, `requests.get` and the multipart encoding of `FormData`. They are replaced by outcome values. For the multipart body, the model records the field name, content, filename and content type.
- JavaScript's `parseInt(limit, 10)` and `new URL(pdfUrl)` are inputs: an `Option<int>` and a `bool`. The parse itself (the WHATWG URL Standard basic URL parser) is not modelled, and `-0` counts as 0.
- The 504 branch of the relay follows the branch order as written. Whether axios ever reaches it, given that a timed-out request usually also has `request` set, is not claimed.
- Sleeping, random jitter, timestamps and all `console`/`logging` output are left out. They are timing and side effects only, except for the case in the next line. The waits the model records are the base backoff without jitter, as exact reals.
- Relay.HandleSearch: the model assumes that the template conversions of `query`, `limit` and `requirePdf` in the log line at FrontEnd/server.js:54-58, and the `parseInt(limit, 10)` at FrontEnd/server.js:65, succeed. A JSON object whose `toString` is not a function (for example `{"toString": 0}`) makes them throw a TypeError outside any `try`, so the handler's promise rejects with no reply and no forwarding call. `SearchBody` does not represent such values.
- Express's own handling of a mirrored status outside its accepted range is framework behaviour and is not modelled.
- `BackendApp.Lower`: lowercases ASCII letters only, and leaves other characters unchanged. The only characters outside ASCII that Python lowercases to ASCII letters are U+0130 (to `i` and a combining dot) and U+212A (to `k`). Neither gives one of the letters of `true`, so the flag is unaffected.
- The generic `except` around each paper (app.py:98-102) catches arbitrary exceptions. Only the concrete one is modelled: a truthy author that is not a dict.
- The `home` route of app.py and `GET /`'s `sendFile` are not modelled. `GET /` is reduced to a boolean input giving 404.
- The `__main__` demonstration code in semantic_api.py and app.py is not modelled.
- Python's in-place update of each paper dict is modelled as a new map value. No other reference to these dicts is observable.
- JSON numbers: Python's distinction between `int` and `float` is kept as `JInt` and `JFloat`. Floating-point arithmetic is not modelled.
- `SemanticApi.SearchPapers`: assumes one simulated outcome for each of the six possible attempts. Outcomes after the deciding attempt are never read.
