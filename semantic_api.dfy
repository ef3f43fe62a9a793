/** `search_papers` (semantic_api.py): up to `MaxRetries + 1` GET requests to the
    Semantic Scholar paper search, retrying on 429, on 5xx and on timeouts with a
    growing backoff, then setting `pdfUrl` on every returned paper. Each attempt's
    outcome is an input; sleeping and jitter are not modelled, only the base wait. */
module SemanticApi {
  import opened Values

  const ApiUrl := "https://api.semanticscholar.org/graph/v1"
  const RequestedFields := "paperId,url,title,abstract,authors,year,isOpenAccess,openAccessPdf"
  const RequestTimeoutSeconds: nat := 25
  const MaxRetries: nat := 5
  const MaxAttempts: nat := MaxRetries + 1
  const InitialBackoff: real := 1.0

  /** A paper as a decoded JSON object. */
  type Paper = map<string, Json>

  /** What one `requests.get` produced: a response (status and body, `None` when the
      body is not valid JSON), a `Timeout`, or any other `RequestException`. */
  datatype AttemptOutcome = Status(code: int, body: Option<Json>) | Timeout | OtherRequestError

  /** The value of `search_papers`: a paper list, `None`, or an exception that escapes
      the function (a payload of an unexpected shape). */
  datatype SearchResult = Papers(papers: seq<Paper>) | NoPapers | Raised

  /** The result and the bookkeeping of one call: attempts made, the base wait before
      each retry, and `current_backoff` when the function returned. */
  datatype SearchRun = SearchRun(result: SearchResult, attempts: nat, waits: seq<real>, backoff: real)

  /** The request every attempt sends. `limit` is the value the caller passed, as it
      goes into the query string: Python's `True` is sent as `True`, not as `1`. */
  datatype ApiRequest = ApiRequest(endpoint: string, query: Json, limit: Json, fields: string, timeoutSeconds: nat)

  /** 429, any status of 500 or more, and a timeout lead to another attempt. */
  predicate Retryable(o: AttemptOutcome)
  {
    o.Timeout? || (o.Status? && (o.code == 429 || o.code >= 500))
  }

  /** `current_backoff` after a retried attempt: doubled after a timeout, otherwise grown by half. */
  function Grown(backoff: real, o: AttemptOutcome): real
  {
    if o.Timeout? then backoff * 2.0 else backoff * 1.5
  }

  // ----- post-processing of a successful response -----

  /** `openAccessPdf['url']` when `openAccessPdf` is a dict with a truthy `url`, else `None`. */
  function PdfUrlOf(paper: Paper): (u: Json)
    ensures PyTruthy(u) <==>
      "openAccessPdf" in paper && paper["openAccessPdf"].JObj? &&
      "url" in paper["openAccessPdf"].fields && PyTruthy(paper["openAccessPdf"].fields["url"])
    ensures PyTruthy(u) ==> u == paper["openAccessPdf"].fields["url"]
    ensures !PyTruthy(u) ==> u == JNull
  {
    var pdfInfo := Get(paper, "openAccessPdf", JNull);
    if PyTruthy(pdfInfo) && pdfInfo.JObj? && PyTruthy(Get(pdfInfo.fields, "url", JNull))
    then pdfInfo.fields["url"]
    else JNull
  }

  /** The paper with its `pdfUrl` key set; every other key is left as it was. */
  function WithPdfUrl(paper: Paper): (q: Paper)
    ensures q.Keys == paper.Keys + {"pdfUrl"}
    ensures q["pdfUrl"] == PdfUrlOf(paper)
    ensures forall k :: k in paper && k != "pdfUrl" ==> q[k] == paper[k]
  {
    paper["pdfUrl" := PdfUrlOf(paper)]
  }

  /** Every element of the list is a dict (otherwise `paper.get` raises). */
  predicate AllObjects(items: seq<Json>)
  {
    forall j :: 0 <= j < |items| ==> items[j].JObj?
  }

  /** The processed list for a list of papers: same length and order, each with `pdfUrl`. */
  function Processed(items: seq<Json>): SearchResult
  {
    if AllObjects(items) then Papers(seq(|items|, j requires 0 <= j < |items| => WithPdfUrl(items[j].fields)))
    else Raised
  }

  /** The outcome of `for paper in papers_found` for every shape `data` can have: a
      list is processed; an empty string or dict iterates over nothing; a non-empty
      string or dict yields strings, which have no `.get`; for anything else `len` raises
      before the loop. */
  function PapersIn(data: Json): SearchResult
  {
    match data
    case JList(items) => Processed(items)
    case JStr(s) => if s == "" then Papers([]) else Raised
    case JObj(fields) => if fields == map[] then Papers([]) else Raised
    case _ => Raised
  }

  /** The loop of semantic_api.py:83-96 over `papers_found`. */
  method ProcessPapers(data: Json) returns (r: SearchResult)
    ensures r == PapersIn(data)
  {
    if !data.JList? {
      return if (data.JStr? && data.s == "") || (data.JObj? && data.fields == map[]) then Papers([]) else Raised;
    }
    var papersFound := data.items;
    var processedPapers: seq<Paper> := [];
    var i := 0;
    while i < |papersFound|
      invariant 0 <= i <= |papersFound|
      invariant forall j :: 0 <= j < i ==> papersFound[j].JObj?
      invariant |processedPapers| == i
      invariant forall j :: 0 <= j < i ==> processedPapers[j] == WithPdfUrl(papersFound[j].fields)
    {
      if !papersFound[i].JObj? {
        return Raised;
      }
      var paper := papersFound[i].fields;
      var pdfInfo := Get(paper, "openAccessPdf", JNull);
      paper := paper["pdfUrl" := JNull];
      if PyTruthy(pdfInfo) && pdfInfo.JObj? && PyTruthy(Get(pdfInfo.fields, "url", JNull)) {
        paper := paper["pdfUrl" := pdfInfo.fields["url"]];
      }
      processedPapers := processedPapers + [paper];
      i := i + 1;
    }
    r := Papers(processedPapers);
  }

  // ----- the attempt loop, stated without a loop -----

  /** The index of the first of the first `n` attempts that does not lead to a retry, or `n`. */
  function FirstDecisive(outcomes: seq<AttemptOutcome>, n: nat): (k: nat)
    requires n <= |outcomes|
    ensures k <= n
    ensures forall i :: 0 <= i < k ==> Retryable(outcomes[i])
    ensures k < n ==> !Retryable(outcomes[k])
  {
    if n == 0 then 0
    else
      var k := FirstDecisive(outcomes, n - 1);
      if k < n - 1 || !Retryable(outcomes[n - 1]) then k else n
  }

  /** `current_backoff` after the first `n` attempts were retried. */
  function BackoffAfter(outcomes: seq<AttemptOutcome>, n: nat): real
    requires n <= |outcomes|
  {
    if n == 0 then InitialBackoff else Grown(BackoffAfter(outcomes, n - 1), outcomes[n - 1])
  }

  /** The base waits before the retries of the first `n` attempts. */
  function Waits(outcomes: seq<AttemptOutcome>, n: nat): (w: seq<real>)
    requires n <= |outcomes|
    ensures |w| == n
    ensures forall i :: 0 <= i < n ==> w[i] == BackoffAfter(outcomes, i)
  {
    if n == 0 then [] else Waits(outcomes, n - 1) + [BackoffAfter(outcomes, n - 1)]
  }

  /** What an attempt that is not retried makes the function return. */
  function Decisive(o: AttemptOutcome): SearchResult
    requires !Retryable(o)
  {
    if o.OtherRequestError? then NoPapers
    else if 400 <= o.code < 600 then NoPapers     // raise_for_status() raises an HTTPError
    else if o.body.None? then NoPapers            // response.json() raises a JSONDecodeError
    else if !o.body.value.JObj? then Raised       // results.get on a non-dict
    else PapersIn(Get(o.body.value.fields, "data", JList([])))
  }

  /** The whole call: the first attempt that is not retried decides, within the
      first `MaxAttempts`; the last attempt is never followed by a wait. */
  function ExpectedRun(outcomes: seq<AttemptOutcome>): (run: SearchRun)
    requires |outcomes| >= MaxAttempts
    ensures 1 <= run.attempts <= MaxAttempts
    ensures |run.waits| == run.attempts - 1
  {
    var k := FirstDecisive(outcomes, MaxAttempts);
    if k < MaxAttempts then
      SearchRun(Decisive(outcomes[k]), k + 1, Waits(outcomes, k), BackoffAfter(outcomes, k))
    else
      SearchRun(NoPapers, MaxAttempts, Waits(outcomes, MaxRetries), BackoffAfter(outcomes, MaxRetries))
  }

  /** The `for attempt in range(MAX_RETRIES + 1)` loop of semantic_api.py:46-115. */
  method SearchPapers(query: Json, limit: Json, outcomes: seq<AttemptOutcome>) returns (request: ApiRequest, run: SearchRun)
    requires |outcomes| >= MaxAttempts
    ensures request == ApiRequest(ApiUrl + "/paper/search", query, limit, RequestedFields, RequestTimeoutSeconds)
    ensures run == ExpectedRun(outcomes)
  {
    request := ApiRequest(ApiUrl + "/paper/search", query, limit, RequestedFields, RequestTimeoutSeconds);
    ghost var k := FirstDecisive(outcomes, MaxAttempts);
    var currentBackoff := InitialBackoff;
    var waits: seq<real> := [];
    var attempt: nat := 0;
    while attempt < MaxAttempts
      invariant attempt <= MaxRetries
      invariant attempt <= k
      invariant waits == Waits(outcomes, attempt)
      invariant currentBackoff == BackoffAfter(outcomes, attempt)
      decreases MaxAttempts - attempt
    {
      var outcome := outcomes[attempt];
      if outcome.Status? && outcome.code == 429 {
        RetriesAt(outcomes, attempt);
        if attempt == MaxRetries { break; }
        waits := waits + [currentBackoff];
        currentBackoff := currentBackoff * 1.5;
      } else if outcome.Status? && outcome.code >= 500 {
        RetriesAt(outcomes, attempt);
        if attempt == MaxRetries { break; }
        waits := waits + [currentBackoff];
        currentBackoff := currentBackoff * 1.5;
      } else if outcome.Status? {
        DecidesAt(outcomes, attempt);
        var result: SearchResult;
        if 400 <= outcome.code < 600 {
          result := NoPapers;
        } else if outcome.body.None? {
          result := NoPapers;
        } else if !outcome.body.value.JObj? {
          result := Raised;
        } else {
          result := ProcessPapers(Get(outcome.body.value.fields, "data", JList([])));
        }
        return request, SearchRun(result, attempt + 1, waits, currentBackoff);
      } else if outcome.Timeout? {
        RetriesAt(outcomes, attempt);
        if attempt == MaxRetries { break; }
        waits := waits + [currentBackoff];
        currentBackoff := currentBackoff * 2.0;
      } else {
        DecidesAt(outcomes, attempt);
        return request, SearchRun(NoPapers, attempt + 1, waits, currentBackoff);
      }
      attempt := attempt + 1;
    }
    run := SearchRun(NoPapers, MaxAttempts, waits, currentBackoff);
  }

  /** A retried attempt before the deciding one: the bookkeeping grows by one step,
      and after the last attempt the call gives up. */
  lemma RetriesAt(outcomes: seq<AttemptOutcome>, attempt: nat)
    requires |outcomes| >= MaxAttempts && attempt < MaxAttempts
    requires attempt <= FirstDecisive(outcomes, MaxAttempts) && Retryable(outcomes[attempt])
    ensures attempt + 1 <= FirstDecisive(outcomes, MaxAttempts)
    ensures Waits(outcomes, attempt + 1) == Waits(outcomes, attempt) + [BackoffAfter(outcomes, attempt)]
    ensures BackoffAfter(outcomes, attempt + 1) == Grown(BackoffAfter(outcomes, attempt), outcomes[attempt])
    ensures attempt == MaxRetries ==>
      ExpectedRun(outcomes) == SearchRun(NoPapers, MaxAttempts, Waits(outcomes, attempt), BackoffAfter(outcomes, attempt))
  {
  }

  /** The attempt that decides the call. */
  lemma DecidesAt(outcomes: seq<AttemptOutcome>, attempt: nat)
    requires |outcomes| >= MaxAttempts && attempt < MaxAttempts
    requires attempt <= FirstDecisive(outcomes, MaxAttempts) && !Retryable(outcomes[attempt])
    ensures ExpectedRun(outcomes) ==
      SearchRun(Decisive(outcomes[attempt]), attempt + 1, Waits(outcomes, attempt), BackoffAfter(outcomes, attempt))
  {
  }

  // ----- properties of the attempt loop -----

  /** Every attempt before the `n`-th led to a retry. */
  predicate RetriedBefore(outcomes: seq<AttemptOutcome>, n: nat)
    requires n <= |outcomes|
  {
    forall i :: 0 <= i < n ==> Retryable(outcomes[i])
  }

  /** A retryable failure that is not the last attempt is followed by another attempt. */
  lemma RetryableFailureIsRetried(outcomes: seq<AttemptOutcome>, n: nat)
    requires |outcomes| >= MaxAttempts && n < MaxRetries
    requires RetriedBefore(outcomes, n + 1)
    ensures ExpectedRun(outcomes).attempts >= n + 2
  {
  }

  /** Six retryable failures in a row give `None` after exactly six attempts. */
  lemma GivesUpAfterLastAttempt(outcomes: seq<AttemptOutcome>)
    requires |outcomes| >= MaxAttempts
    requires RetriedBefore(outcomes, MaxAttempts)
    ensures ExpectedRun(outcomes).result == NoPapers
    ensures ExpectedRun(outcomes).attempts == MaxAttempts
    ensures |ExpectedRun(outcomes).waits| == MaxRetries
  {
  }

  /** Any other 4xx status, or any other `RequestException`, ends the call with
      `None` at once, whatever later attempts would have produced. */
  lemma ClientErrorStopsAtOnce(outcomes: seq<AttemptOutcome>, n: nat)
    requires |outcomes| >= MaxAttempts && n < MaxAttempts
    requires RetriedBefore(outcomes, n)
    requires outcomes[n].OtherRequestError? ||
             (outcomes[n].Status? && 400 <= outcomes[n].code < 500 && outcomes[n].code != 429)
    ensures ExpectedRun(outcomes).result == NoPapers
    ensures ExpectedRun(outcomes).attempts == n + 1
  {
  }

  /** The attempt that decides is the first one that is not retried. */
  lemma FirstDecisiveIs(outcomes: seq<AttemptOutcome>, n: nat)
    requires |outcomes| >= MaxAttempts && n < MaxAttempts
    requires RetriedBefore(outcomes, n) && !Retryable(outcomes[n])
    ensures FirstDecisive(outcomes, MaxAttempts) == n
  {
  }

  /** A response that is not an error but whose body is not valid JSON ends the call
      with `None` (the `JSONDecodeError` is a `RequestException`); a valid body that is
      not a JSON object raises out of the function (`results.get` on a non-dict). */
  lemma MalformedBodyOutcome(outcomes: seq<AttemptOutcome>, n: nat)
    requires |outcomes| >= MaxAttempts && n < MaxAttempts
    requires RetriedBefore(outcomes, n) && outcomes[n].Status? && outcomes[n].code < 400
    ensures ExpectedRun(outcomes).attempts == n + 1
    ensures outcomes[n].body.None? ==> ExpectedRun(outcomes).result == NoPapers
    ensures outcomes[n].body.Some? && !outcomes[n].body.value.JObj? ==> ExpectedRun(outcomes).result == Raised
  {
  }

  /** A successful response yields the papers of `data` in order, each with `pdfUrl`;
      a response without `data` is a success with no papers, not `None`. */
  lemma SuccessKeepsPapers(outcomes: seq<AttemptOutcome>, n: nat, results: map<string, Json>)
    requires |outcomes| >= MaxAttempts && n < MaxAttempts
    requires RetriedBefore(outcomes, n)
    requires outcomes[n].Status? && outcomes[n].code < 400 && outcomes[n].body == Some(JObj(results))
    ensures "data" !in results ==> ExpectedRun(outcomes).result == Papers([])
    ensures "data" in results && results["data"].JList? && AllObjects(results["data"].items) ==>
      var items := results["data"].items;
      var r := ExpectedRun(outcomes).result;
      r.Papers? && |r.papers| == |items| &&
      forall j :: 0 <= j < |items| ==> r.papers[j] == WithPdfUrl(items[j].fields)
  {
  }

  // ----- the backoff -----

  function Pow(x: real, e: nat): real
  {
    if e == 0 then 1.0 else x * Pow(x, e - 1)
  }

  /** How many of the first `n` outcomes are timeouts. */
  function CountTimeouts(outcomes: seq<AttemptOutcome>, n: nat): (t: nat)
    requires n <= |outcomes|
    ensures t <= n
  {
    if n == 0 then 0 else CountTimeouts(outcomes, n - 1) + (if outcomes[n - 1].Timeout? then 1 else 0)
  }

  /** How many of the first `n` outcomes are not timeouts (for retried attempts: a 429 or a 5xx). */
  function CountStatuses(outcomes: seq<AttemptOutcome>, n: nat): (c: nat)
    requires n <= |outcomes|
    ensures c + CountTimeouts(outcomes, n) == n
  {
    if n == 0 then 0 else CountStatuses(outcomes, n - 1) + (if outcomes[n - 1].Timeout? then 0 else 1)
  }

  /** `current_backoff` is 1.5 to the number of retried 429/5xx responses times 2 to
      the number of retried timeouts. */
  lemma {:induction false} BackoffClosedForm(outcomes: seq<AttemptOutcome>, n: nat)
    requires n <= |outcomes|
    ensures BackoffAfter(outcomes, n) ==
      Pow(1.5, CountStatuses(outcomes, n)) * Pow(2.0, CountTimeouts(outcomes, n))
  {
    BackoffScaled(outcomes, n);
    ScaledIsPow(CountStatuses(outcomes, n), CountTimeouts(outcomes, n));
  }

  /** 1.5 to the `c` times 2 to the `t`, as `t` doublings after `c` growths by half. */
  function Scaled(c: nat, t: nat): real
  {
    if t > 0 then Scaled(c, t - 1) * 2.0 else if c > 0 then Scaled(c - 1, 0) * 1.5 else InitialBackoff
  }

  /** The growths commute with the doublings. */
  lemma {:induction false} ScaledGrowsByHalf(c: nat, t: nat)
    ensures Scaled(c + 1, t) == Scaled(c, t) * 1.5
  {
    if t > 0 {
      ScaledGrowsByHalf(c, t - 1);
    }
  }

  /** The backoff depends only on how many retries of each kind there were. */
  lemma {:induction false} BackoffScaled(outcomes: seq<AttemptOutcome>, n: nat)
    requires n <= |outcomes|
    ensures BackoffAfter(outcomes, n) == Scaled(CountStatuses(outcomes, n), CountTimeouts(outcomes, n))
  {
    if n > 0 {
      BackoffScaled(outcomes, n - 1);
      if !outcomes[n - 1].Timeout? {
        ScaledGrowsByHalf(CountStatuses(outcomes, n - 1), CountTimeouts(outcomes, n - 1));
      }
    }
  }

  lemma {:induction false} ScaledIsPow(c: nat, t: nat)
    ensures Scaled(c, t) == Pow(1.5, c) * Pow(2.0, t)
  {
    if t > 0 {
      ScaledIsPow(c, t - 1);
      assert Pow(2.0, t) == 2.0 * Pow(2.0, t - 1);
    } else if c > 0 {
      ScaledIsPow(c - 1, 0);
      assert Pow(1.5, c) == 1.5 * Pow(1.5, c - 1);
    }
  }

  /** The waits start at one second and strictly grow from one retry to the next. */
  lemma {:induction false} WaitsGrow(outcomes: seq<AttemptOutcome>, n: nat)
    requires n <= |outcomes|
    ensures BackoffAfter(outcomes, n) >= 1.0
    ensures n > 0 ==> BackoffAfter(outcomes, n) > BackoffAfter(outcomes, n - 1)
  {
    if n > 0 {
      WaitsGrow(outcomes, n - 1);
    }
  }
}
