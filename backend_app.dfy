/** The Flask `/search` handler (app.py:16-106): request validation, the
    `require_pdf` flag, the call to `search_papers` with an inflated limit when
    filtering, and the loop that filters, projects and truncates the papers. */
module BackendApp {
  import opened Values
  import SemanticApi

  type Paper = SemanticApi.Paper

  const DefaultLimit := 10
  const EntryKeys: set<string> := {"title", "abstract", "year", "authors", "pdfUrl"}

  const NotJson := "Request must be JSON"
  const MissingQuery := "Missing 'query' in request data"
  const BadLimit := "'limit' must be a positive integer"
  const SearchCrashed := "An internal server error occurred during search API call"
  const UpstreamFailed := "Failed to retrieve papers from external API after multiple attempts. Please try again later."

  /** What the handler reads of the request: `request.is_json`, the body `get_json()`
      decodes (`None` when it is not valid JSON) and `request.args.get('require_pdf')`. */
  datatype FlaskRequest = FlaskRequest(isJson: bool, body: Option<Json>, requirePdfArg: Option<string>)

  /** A JSON reply of the handler, or an error page Flask produces when the handler
      raises (400 for an undecodable body, 500 for an uncaught exception). */
  datatype FlaskReply = JsonReply(status: int, body: Json) | FrameworkError(status: int)

  /** The validated request: the query, the limit value as the caller sent it, and
      the number it counts as (`true` counts as 1). */
  datatype SearchParams = SearchParams(query: Json, limitValue: Json, limit: int)

  // ----- validation -----

  /** `isinstance(limit, int) and limit > 0` as a number; `bool` is a subclass of
      `int` in Python, so `true` passes, as 1. */
  function PositiveIntLimit(v: Json): (r: Option<int>)
    ensures r.Some? <==> (v.JInt? && v.i > 0) || v == JBool(true)
    ensures r.Some? ==> r.value >= 1
    ensures v.JInt? && v.i > 0 ==> r == Some(v.i)
    ensures v == JBool(true) ==> r == Some(1)
  {
    match v
    case JInt(i) => if i > 0 then Some(i) else None
    case JBool(b) => if b then Some(1) else None
    case _ => None
  }

  /** app.py:28-42, in their order: not JSON, then the query, then the limit. */
  function ValidateSearch(req: FlaskRequest): (r: Result<SearchParams, FlaskReply>)
    ensures !req.isJson ==> r == Err(JsonReply(400, ErrorBody(NotJson)))
    ensures req.isJson && req.body.None? ==> r == Err(FrameworkError(400))
    ensures req.isJson && req.body.Some? && !req.body.value.JObj? ==> r == Err(FrameworkError(500))
    ensures req.isJson && req.body.Some? && req.body.value.JObj? &&
            !PyTruthy(Get(req.body.value.fields, "query", JNull)) ==>
      r == Err(JsonReply(400, ErrorBody(MissingQuery)))
    ensures r.Ok? <==> (req.isJson && req.body.Some? && req.body.value.JObj? &&
      PyTruthy(Get(req.body.value.fields, "query", JNull)) &&
      PositiveIntLimit(Get(req.body.value.fields, "limit", JInt(DefaultLimit))).Some?)
    ensures req.isJson && req.body.Some? && req.body.value.JObj? &&
            PyTruthy(Get(req.body.value.fields, "query", JNull)) &&
            PositiveIntLimit(Get(req.body.value.fields, "limit", JInt(DefaultLimit))).None? ==>
      r == Err(JsonReply(400, ErrorBody(BadLimit)))
    ensures r.Ok? ==>
      var limitValue := Get(req.body.value.fields, "limit", JInt(DefaultLimit));
      r.value == SearchParams(Get(req.body.value.fields, "query", JNull), limitValue, PositiveIntLimit(limitValue).value)
    ensures r.Ok? ==> r.value.limit >= 1 && PyTruthy(r.value.query)
    ensures r.Ok? && "limit" !in req.body.value.fields ==> r.value.limit == DefaultLimit
    ensures r.Err? && r.error.JsonReply? ==> r.error.status == 400
  {
    if !req.isJson then Err(JsonReply(400, ErrorBody(NotJson)))
    else if req.body.None? then Err(FrameworkError(400))          // get_json() aborts with 400
    else if !req.body.value.JObj? then Err(FrameworkError(500))  // data.get on a non-dict raises
    else
      var data := req.body.value.fields;
      var query := Get(data, "query", JNull);
      var limit := Get(data, "limit", JInt(DefaultLimit));
      if !PyTruthy(query) then Err(JsonReply(400, ErrorBody(MissingQuery)))
      else match PositiveIntLimit(limit)
        case None => Err(JsonReply(400, ErrorBody(BadLimit)))
        case Some(n) => Ok(SearchParams(query, limit, n))
  }

  // ----- the require_pdf flag -----

  function LowerAscii(c: char): char
  {
    if 'A' <= c <= 'Z' then (c as int - 'A' as int + 'a' as int) as char else c
  }

  /** `s.lower()` on the characters that matter here; see the README for non-ASCII input. */
  function Lower(s: string): (t: string)
    ensures |t| == |s|
    ensures forall i :: 0 <= i < |s| ==> t[i] == LowerAscii(s[i])
  {
    seq(|s|, i requires 0 <= i < |s| => LowerAscii(s[i]))
  }

  /** `request.args.get('require_pdf', 'false').lower() == 'true'`. */
  function RequirePdfFilter(arg: Option<string>): (on: bool)
    ensures arg.None? ==> !on
  {
    var s := match arg case Some(v) => v case None => "false";
    Lower(s) == "true"
  }

  /** The flag is on exactly for the sixteen spellings of `true` in any letter case. */
  lemma RequirePdfSpellings(s: string)
    ensures RequirePdfFilter(Some(s)) <==>
      |s| == 4 && s[0] in "tT" && s[1] in "rR" && s[2] in "uU" && s[3] in "eE"
  {
  }

  // ----- projection of one paper -----

  /** The comprehension of app.py:80-82 over a list of authors: the truthy `name` of
      every truthy author, or `None` when a truthy author is not a dict (its `.get`
      raises and the paper is skipped). */
  function AuthorNames(authors: seq<Json>): (r: Option<seq<Json>>)
    ensures r.Some? <==> forall j :: 0 <= j < |authors| ==> !PyTruthy(authors[j]) || authors[j].JObj?
    ensures r.Some? ==> |r.value| <= |authors| && forall j :: 0 <= j < |r.value| ==> PyTruthy(r.value[j])
  {
    if authors == [] then Some([])
    else
      var author := authors[0];
      var rest := AuthorNames(authors[1..]);
      if !PyTruthy(author) then rest
      else if !author.JObj? then None
      else
        var name := Get(author.fields, "name", JNull);
        if !PyTruthy(name) then rest
        else match rest
          case Some(names) => Some([name] + names)
          case None => None
  }

  /** An author the comprehension keeps: truthy, and a dict with a truthy `name`. */
  predicate Named(author: Json)
  {
    PyTruthy(author) && author.JObj? && PyTruthy(Get(author.fields, "name", JNull))
  }

  /** The comprehension over a single author: its name when it is kept, nothing when
      it is falsy or has no truthy name, and an exception when it is truthy but not a dict. */
  lemma AuthorNamesOfOne(author: Json)
    ensures Named(author) ==> AuthorNames([author]) == Some([Get(author.fields, "name", JNull)])
    ensures !PyTruthy(author) || (author.JObj? && !Named(author)) ==> AuthorNames([author]) == Some([])
    ensures PyTruthy(author) && !author.JObj? ==> AuthorNames([author]) == None
  {
    assert [author][1..] == [];
    assert AuthorNames([]) == Some([]);
    if Named(author) {
      assert [Get(author.fields, "name", JNull)] + [] == [Get(author.fields, "name", JNull)];
    }
  }

  /** The comprehension over `a + b` is the one over `a` followed by the one over `b`,
      and it raises when either part raises: together with `AuthorNamesOfOne`, the
      names are those of the kept authors, each once, in the authors' order. */
  lemma {:induction false} AuthorNamesAppend(a: seq<Json>, b: seq<Json>)
    ensures AuthorNames(a + b) ==
      if AuthorNames(a).Some? && AuthorNames(b).Some? then Some(AuthorNames(a).value + AuthorNames(b).value) else None
  {
    if a == [] {
      assert a + b == b;
      assert AuthorNames(a) == Some([]);
      if AuthorNames(b).Some? {
        assert [] + AuthorNames(b).value == AuthorNames(b).value;
      }
    } else {
      assert (a + b)[0] == a[0] && (a + b)[1..] == a[1..] + b;
      AuthorNamesAppend(a[1..], b);
      if Named(a[0]) && AuthorNames(a[1..]).Some? && AuthorNames(b).Some? {
        assert [Get(a[0].fields, "name", JNull)] + (AuthorNames(a[1..]).value + AuthorNames(b).value)
            == ([Get(a[0].fields, "name", JNull)] + AuthorNames(a[1..]).value) + AuthorNames(b).value;
      }
    }
  }

  /** The `try` block of app.py:77-92 for one paper: the five essential fields, or
      `None` when building them raises. */
  function Project(paper: Paper): (r: Option<Paper>)
    ensures r.Some? ==> r.value.Keys == EntryKeys
    ensures r.Some? ==> r.value["pdfUrl"] == Get(paper, "pdfUrl", JNull)
    ensures r.Some? ==> r.value["title"] == Get(paper, "title", JNull) &&
                        r.value["abstract"] == Get(paper, "abstract", JNull) &&
                        r.value["year"] == Get(paper, "year", JNull)
    ensures r.Some? && !Get(paper, "authors", JList([])).JList? ==> r.value["authors"] == JList([])
    ensures r.None? <==> Get(paper, "authors", JList([])).JList? && AuthorNames(Get(paper, "authors", JList([])).items).None?
    ensures r.Some? && Get(paper, "authors", JList([])).JList? ==>
      r.value["authors"] == JList(AuthorNames(Get(paper, "authors", JList([])).items).value)
  {
    var authorsList := Get(paper, "authors", JList([]));
    var authorNames := if authorsList.JList? then AuthorNames(authorsList.items) else Some([]);
    match authorNames
    case None => None
    case Some(names) =>
      Some(map[
        "title" := Get(paper, "title", JNull),
        "abstract" := Get(paper, "abstract", JNull),
        "year" := Get(paper, "year", JNull),
        "authors" := JList(names),
        "pdfUrl" := Get(paper, "pdfUrl", JNull)])
  }

  // ----- the filter / project / truncate loop, stated without a loop -----

  /** A paper the loop does not skip with `continue`. */
  predicate Kept(paper: Paper, filter: bool)
  {
    !(filter && !PyTruthy(Get(paper, "pdfUrl", JNull))) && Project(paper).Some?
  }

  /** The projections of every paper that is not skipped, in order, with no limit. */
  function Selected(papers: seq<Paper>, filter: bool): (r: seq<Paper>)
    ensures |r| <= |papers|
  {
    if papers == [] then []
    else if Kept(papers[0], filter) then [Project(papers[0]).value] + Selected(papers[1..], filter)
    else Selected(papers[1..], filter)
  }

  /** The first `n` elements, or all of them. */
  function Take(s: seq<Paper>, n: nat): (r: seq<Paper>)
    ensures |r| == if |s| <= n then |s| else n
    ensures forall j :: 0 <= j < |r| ==> r[j] == s[j]
  {
    if |s| <= n then s else s[..n]
  }

  /** The loop of app.py:67-96. */
  method FilterAndProject(papers: seq<Paper>, limit: int, filter: bool) returns (processedResults: seq<Paper>)
    requires limit >= 1
    ensures processedResults == Take(Selected(papers, filter), limit)
    ensures |processedResults| <= limit
    ensures forall j :: 0 <= j < |processedResults| ==> processedResults[j].Keys == EntryKeys
    ensures filter ==> forall j :: 0 <= j < |processedResults| ==> PyTruthy(processedResults[j]["pdfUrl"])
  {
    processedResults := [];
    var papersAdded := 0;
    var i := 0;
    while i < |papers|
      invariant 0 <= i <= |papers|
      invariant papersAdded == |processedResults| < limit
      invariant Take(Selected(papers, filter), limit) == Take(processedResults + Selected(papers[i..], filter), limit)
    {
      var paper := papers[i];
      SelectedStep(papers, i, filter);
      i := i + 1;
      var pdfUrl := Get(paper, "pdfUrl", JNull);
      if filter && !PyTruthy(pdfUrl) {
        continue;
      }
      var essentialData := Project(paper);
      if essentialData.None? {
        continue;   // the except clause
      }
      Reassociate(processedResults, essentialData.value, Selected(papers[i..], filter));
      processedResults := processedResults + [essentialData.value];
      papersAdded := papersAdded + 1;
      if papersAdded >= limit {
        TakeExact(processedResults, Selected(papers[i..], filter), limit);
        SelectedEntries(papers, filter);
        return;
      }
    }
    assert papers[i..] == [];
    SelectedEntries(papers, filter);
  }

  /** One step of `Selected` from position `i`. */
  lemma SelectedStep(papers: seq<Paper>, i: nat, filter: bool)
    requires i < |papers|
    ensures Selected(papers[i..], filter) ==
      (if Kept(papers[i], filter) then [Project(papers[i]).value] else []) + Selected(papers[i + 1..], filter)
  {
    assert papers[i..][1..] == papers[i + 1..];
  }

  lemma Reassociate(a: seq<Paper>, x: Paper, b: seq<Paper>)
    ensures a + ([x] + b) == (a + [x]) + b
  {
  }

  lemma TakeExact(a: seq<Paper>, b: seq<Paper>, n: nat)
    requires |a| == n
    ensures Take(a + b, n) == a
  {
    assert (a + b)[..n] == a;
  }

  // ----- properties of the output -----

  /** `idx` lists, in strictly increasing order, the positions of the papers whose
      projections make up `entries`. */
  predicate SelectionIndex(papers: seq<Paper>, filter: bool, entries: seq<Paper>, idx: seq<nat>)
  {
    && |idx| == |entries|
    && (forall j :: 0 <= j < |idx| ==>
          idx[j] < |papers| && Kept(papers[idx[j]], filter) && Project(papers[idx[j]]) == Some(entries[j]))
    && (forall j, l :: 0 <= j < l < |idx| ==> idx[j] < idx[l])
  }

  /** The indices of a selection from `papers[1..]`, shifted to positions in `papers`. */
  lemma ShiftIndex(papers: seq<Paper>, filter: bool, entries: seq<Paper>, rest: seq<nat>) returns (shifted: seq<nat>)
    requires papers != [] && SelectionIndex(papers[1..], filter, entries, rest)
    ensures SelectionIndex(papers, filter, entries, shifted)
    ensures forall j :: 0 <= j < |shifted| ==> shifted[j] >= 1
  {
    shifted := seq(|rest|, j requires 0 <= j < |rest| => rest[j] + 1);
    forall j | 0 <= j < |rest|
      ensures papers[shifted[j]] == papers[1..][rest[j]]
    {
    }
  }

  /** The selection index gains position 0 when the first paper is kept. */
  lemma ConsIndex(papers: seq<Paper>, filter: bool, entries: seq<Paper>, shifted: seq<nat>)
    requires papers != [] && Kept(papers[0], filter)
    requires SelectionIndex(papers, filter, entries, shifted)
    requires forall j :: 0 <= j < |shifted| ==> shifted[j] >= 1
    ensures SelectionIndex(papers, filter, [Project(papers[0]).value] + entries, [0] + shifted)
  {
    var idx, sel := [0] + shifted, [Project(papers[0]).value] + entries;
    forall j | 1 <= j < |idx|
      ensures idx[j] == shifted[j - 1] && sel[j] == entries[j - 1]
    {
    }
  }

  /** The output is an order-preserving subsequence of the projected input: entry `j`
      is the projection of paper `idx[j]`, which the loop kept, and the indices strictly increase. */
  lemma {:induction false} SelectedIsSubsequence(papers: seq<Paper>, filter: bool) returns (idx: seq<nat>)
    ensures SelectionIndex(papers, filter, Selected(papers, filter), idx)
  {
    if papers == [] {
      return [];
    }
    var rest := SelectedIsSubsequence(papers[1..], filter);
    var shifted := ShiftIndex(papers, filter, Selected(papers[1..], filter), rest);
    if Kept(papers[0], filter) {
      ConsIndex(papers, filter, Selected(papers[1..], filter), shifted);
      idx := [0] + shifted;
    } else {
      idx := shifted;
    }
  }

  /** The same holds of the truncated output: it is a subsequence of the fetched papers. */
  lemma OutputIsSubsequence(papers: seq<Paper>, limit: int, filter: bool) returns (idx: seq<nat>)
    requires limit >= 1
    ensures SelectionIndex(papers, filter, Take(Selected(papers, filter), limit), idx)
  {
    var all := SelectedIsSubsequence(papers, filter);
    idx := all[..|Take(Selected(papers, filter), limit)|];
  }

  /** With the filter on, every entry has a truthy `pdfUrl`; every entry has exactly the five essential keys. */
  lemma {:induction false} SelectedEntries(papers: seq<Paper>, filter: bool)
    ensures forall j :: 0 <= j < |Selected(papers, filter)| ==> Selected(papers, filter)[j].Keys == EntryKeys
    ensures filter ==> forall j :: 0 <= j < |Selected(papers, filter)| ==> PyTruthy(Selected(papers, filter)[j]["pdfUrl"])
  {
    if papers != [] {
      SelectedEntries(papers[1..], filter);
    }
  }

  /** Without the filter, and when no paper raises, every paper is kept, in order. */
  lemma {:induction false} UnfilteredKeepsAll(papers: seq<Paper>)
    requires forall j :: 0 <= j < |papers| ==> Project(papers[j]).Some?
    ensures |Selected(papers, false)| == |papers|
    ensures forall j :: 0 <= j < |papers| ==> Some(Selected(papers, false)[j]) == Project(papers[j])
  {
    if papers != [] {
      UnfilteredKeepsAll(papers[1..]);
      assert forall j :: 1 <= j < |papers| ==> papers[1..][j - 1] == papers[j];
    }
  }

  /** The loop's output without the filter is the first `min(limit, n)` papers projected. */
  lemma UnfilteredOutputIsPrefix(papers: seq<Paper>, limit: int)
    requires limit >= 1
    requires forall j :: 0 <= j < |papers| ==> Project(papers[j]).Some?
    ensures var out := Take(Selected(papers, false), limit);
      |out| == (if |papers| <= limit then |papers| else limit) &&
      forall j :: 0 <= j < |out| ==> Some(out[j]) == Project(papers[j])
  {
    UnfilteredKeepsAll(papers);
  }

  // ----- the handler -----

  /** The response for what `search_papers` returned (app.py:56-106). */
  function SearchReply(result: SemanticApi.SearchResult, limit: int, filter: bool): (r: FlaskReply)
    requires limit >= 1
    ensures result.Raised? ==> r == JsonReply(500, ErrorBody(SearchCrashed))
    ensures result.NoPapers? ==> r == JsonReply(503, ErrorBody(UpstreamFailed))
    ensures result.Papers? ==>
      var out := Take(Selected(result.papers, filter), limit);
      (r.JsonReply? && r.status == 200 && r.body.JList? && |r.body.items| == |out| <= limit &&
       forall j :: 0 <= j < |out| ==> r.body.items[j] == JObj(out[j]))
  {
    match result
    case Raised => JsonReply(500, ErrorBody(SearchCrashed))
    case NoPapers => JsonReply(503, ErrorBody(UpstreamFailed))
    case Papers(papers) =>
      var out := Take(Selected(papers, filter), limit);
      JsonReply(200, JList(seq(|out|, j requires 0 <= j < |out| => JObj(out[j]))))
  }

  /** `handle_search`, with the Semantic Scholar attempts as input. The
      upstream request asks for twice the limit when filtering. */
  method HandleSearch(req: FlaskRequest, upstream: seq<SemanticApi.AttemptOutcome>) returns (sent: Option<SemanticApi.ApiRequest>, reply: FlaskReply)
    requires |upstream| >= SemanticApi.MaxAttempts
    ensures ValidateSearch(req).Err? ==> sent.None? && reply == ValidateSearch(req).error
    ensures ValidateSearch(req).Ok? ==>
      var params := ValidateSearch(req).value;
      var filter := RequirePdfFilter(req.requirePdfArg);
      sent == Some(SemanticApi.ApiRequest(SemanticApi.ApiUrl + "/paper/search", params.query,
        if filter then JInt(params.limit * 2) else params.limitValue,
        SemanticApi.RequestedFields, SemanticApi.RequestTimeoutSeconds)) &&
      reply == SearchReply(SemanticApi.ExpectedRun(upstream).result, params.limit, filter)
  {
    var validated := ValidateSearch(req);
    if validated.Err? {
      return None, validated.error;
    }
    var query, limitValue, limit := validated.value.query, validated.value.limitValue, validated.value.limit;
    var requirePdfFilter := RequirePdfFilter(req.requirePdfArg);
    var request, run := SemanticApi.SearchPapers(query, if requirePdfFilter then JInt(limit * 2) else limitValue, upstream);
    sent := Some(request);
    match run.result
    case Raised =>
      reply := JsonReply(500, ErrorBody(SearchCrashed));
    case NoPapers =>
      reply := JsonReply(503, ErrorBody(UpstreamFailed));
    case Papers(papers) =>
      var processedResults := FilterAndProject(papers, limit, requirePdfFilter);
      reply := JsonReply(200, JList(seq(|processedResults|, j requires 0 <= j < |processedResults| => JObj(processedResults[j]))));
  }
}
