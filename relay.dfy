/** The Express relay (FrontEnd/server.js): validation of the three forwarding
    routes, the call each one would forward to the Flask backend, and the
    translation of the backend's answer, or of the axios error, into the reply
    sent back to the browser. The HTTP call itself is an input: `CallOutcome`. */
module Relay {
  import opened Values

  const FlaskSearchEndpoint := "/search"
  const FlaskProcessFileEndpoint := "/process-and-generate"
  const FlaskProcessUrlEndpoint := "/process-url-and-generate"
  const RequirePdfQuery := "?require_pdf=true"
  const SearchTimeoutMs: nat := 45000
  const ReviewTimeoutMs: nat := 180000
  const DefaultSearchLimit := 15
  const UploadField := "pdfFile"
  const PdfMimetype := "application/pdf"
  const TimeoutCode := "ECONNABORTED"

  const QueryRequired := "Query parameter is required."
  const LimitOutOfRange := "Limit must be between 1 and 100."
  const NoFileUploaded := "No PDF file uploaded."
  const InvalidPdfUrl := "Missing or invalid pdfUrl in request body."
  const InvalidUrlFormat := "Invalid URL format provided."
  const UiNotFoundText := "UI file not found."

  /** Status and JSON body sent to the browser. */
  datatype Reply = Reply(status: int, body: Json)

  /** A response received from Flask (axios' `response`). */
  datatype HttpResponse = HttpResponse(status: nat, data: Json)

  /** What the relay can see of an axios error: the optional `response`, whether
      `request` is set (the request went out but no response came back), and `code`. */
  datatype AxiosError = AxiosError(response: Option<HttpResponse>, request: bool, code: Option<string>)

  /** How the awaited `axios.post` ended. */
  datatype CallOutcome = Resolved(response: HttpResponse) | Failed(error: AxiosError)

  /** One field of a multipart body, as added by `FormData.append(name, buffer, {filename, contentType})`. */
  datatype FormPart = FormPart(name: string, content: seq<bv8>, filename: string, contentType: string)

  /** The POST the relay would send to Flask. */
  datatype ForwardCall =
    | JsonPost(url: string, body: Json, timeoutMs: nat)
    | MultipartPost(url: string, parts: seq<FormPart>, timeoutMs: nat)

  /** One handled request: the forwarding call, if any was made, and the reply. */
  datatype Exchange = Exchange(call: Option<ForwardCall>, reply: Reply)

  /** The error classifier exists twice: inline in `/search` and as `handleFlaskError`
      for the two review routes. They differ only in their messages. */
  datatype Route = SearchRoute | ReviewRoute

  // ----- decimal rendering of a status code, as in a JavaScript template literal -----

  function DigitChar(d: nat): char
    requires d < 10
  {
    ('0' as int + d) as char
  }

  predicate IsDigits(s: string)
  {
    forall i :: 0 <= i < |s| ==> '0' <= s[i] <= '9'
  }

  /** `${n}` for a non-negative integer: its decimal digits, no leading zero. */
  function NatToString(n: nat): (s: string)
    ensures |s| >= 1 && IsDigits(s)
    ensures |s| > 1 ==> s[0] != '0'
  {
    if n < 10 then [DigitChar(n)] else NatToString(n / 10) + [DigitChar(n % 10)]
  }

  /** The number a string of decimal digits denotes. */
  function DecimalValue(s: string): nat
    requires IsDigits(s)
  {
    if s == [] then 0 else DecimalValue(s[..|s| - 1]) * 10 + (s[|s| - 1] as int - '0' as int)
  }

  /** The rendered status reads back as the status itself. */
  lemma {:induction false} DecimalRoundTrip(n: nat)
    ensures DecimalValue(NatToString(n)) == n
  {
    if n >= 10 {
      var s := NatToString(n);
      assert s[..|s| - 1] == NatToString(n / 10);
      DecimalRoundTrip(n / 10);
    }
  }

  // ----- error classification -----

  function StatusPrefix(route: Route): string
  {
    if route == SearchRoute then "Flask API error" else "Flask processing/generation error"
  }

  function UnreachableMessage(route: Route): (m: string)
    ensures |m| > 0
  {
    if route == SearchRoute then "Could not connect to the search service."
    else "Could not connect to the backend processing service."
  }

  function TimedOutMessage(route: Route): (m: string)
    ensures |m| > 0
  {
    if route == SearchRoute then "The request to the search service timed out."
    else "The request to the backend processing service timed out."
  }

  function InternalMessage(route: Route): (m: string)
    ensures |m| > 0
  {
    if route == SearchRoute then "An internal server error occurred."
    else "An internal server error occurred while communicating with the backend service."
  }

  /** `data?.error`: the `error` property of a response body, `undefined` unless the body is an object holding it. */
  function DataError(data: Json): Option<Json>
  {
    if data.JObj? && "error" in data.fields then Some(data.fields["error"]) else None
  }

  /** `{error: <value>}`, the only body the relay builds itself. */
  predicate IsErrorEnvelope(body: Json)
  {
    body.JObj? && body.fields.Keys == {"error"} && JsTruthy(Some(body.fields["error"]))
  }

  /** The `"<prefix> (<status>)"` fallback message. */
  function StatusMessage(route: Route, status: nat): (m: string)
    ensures |m| == |StatusPrefix(route)| + 3 + |NatToString(status)|
    ensures m[..|StatusPrefix(route)|] == StatusPrefix(route)
    ensures m[|StatusPrefix(route)|..|StatusPrefix(route)| + 2] == " (" && m[|m| - 1] == ')'
    ensures var digits := m[|StatusPrefix(route)| + 2 .. |m| - 1];
      IsDigits(digits) && DecimalValue(digits) == status
  {
    var m := StatusPrefix(route) + " (" + NatToString(status) + ")";
    assert m[|StatusPrefix(route)| + 2 .. |m| - 1] == NatToString(status);
    assert m[|StatusPrefix(route)|..|StatusPrefix(route)| + 2] == " (";
    DecimalRoundTrip(status);
    m
  }

  /** `data?.error || "<prefix> (<status>)"`: the backend's own message when it is
      truthy, otherwise the fallback naming the status. */
  function ResponseError(resp: HttpResponse, route: Route): (v: Json)
    ensures JsTruthy(Some(v))
    ensures JsTruthy(DataError(resp.data)) ==> v == DataError(resp.data).value
    ensures !JsTruthy(DataError(resp.data)) ==> v == JStr(StatusMessage(route, resp.status))
  {
    var err := DataError(resp.data);
    if JsTruthy(err) then err.value else JStr(StatusMessage(route, resp.status))
  }

  /** `{error: v}` is an error envelope whenever `v` is truthy. */
  lemma EnvelopeOf(v: Json)
    requires JsTruthy(Some(v))
    ensures IsErrorEnvelope(JObj(map["error" := v]))
  {
  }

  /** The catch block of `/search` (server.js:104-122) and `handleFlaskError`
      (server.js:259-306): the first of `response`, `request`, `code == "ECONNABORTED"`
      that applies decides; the body is always an error envelope. */
  function ClassifyError(e: AxiosError, route: Route): (r: Reply)
    ensures IsErrorEnvelope(r.body)
    ensures e.response.Some? ==> r == Reply(e.response.value.status, JObj(map["error" := ResponseError(e.response.value, route)]))
    ensures e.response.None? ==>
      r.status == (if e.request then 502 else if e.code == Some(TimeoutCode) then 504 else 500)
    ensures e.response.None? ==>
      r.body == ErrorBody(if e.request then UnreachableMessage(route)
                          else if e.code == Some(TimeoutCode) then TimedOutMessage(route)
                          else InternalMessage(route))
  {
    if e.response.Some? then
      EnvelopeOf(ResponseError(e.response.value, route));
      Reply(e.response.value.status, JObj(map["error" := ResponseError(e.response.value, route)]))
    else if e.request then
      EnvelopeOf(JStr(UnreachableMessage(route)));
      Reply(502, ErrorBody(UnreachableMessage(route)))
    else if e.code == Some(TimeoutCode) then
      EnvelopeOf(JStr(TimedOutMessage(route)));
      Reply(504, ErrorBody(TimedOutMessage(route)))
    else
      EnvelopeOf(JStr(InternalMessage(route)));
      Reply(500, ErrorBody(InternalMessage(route)))
  }

  /** Once a response is present, neither `request` nor `code` changes the reply. */
  lemma ResponseTakesPrecedence(resp: HttpResponse, route: Route, request1: bool, code1: Option<string>, request2: bool, code2: Option<string>)
    ensures ClassifyError(AxiosError(Some(resp), request1, code1), route)
         == ClassifyError(AxiosError(Some(resp), request2, code2), route)
  {
  }

  /** Without a response, `request` hides the timeout code: 504 needs neither. */
  lemma GatewayTimeoutOnlyWithoutRequest(e: AxiosError, route: Route)
    requires e.response.None?
    ensures ClassifyError(e, route).status == 504 <==> !e.request && e.code == Some(TimeoutCode)
  {
  }

  /** The inline copy and `handleFlaskError` choose the same status for every error. */
  lemma ClassifiersAgreeOnStatus(e: AxiosError)
    ensures ClassifyError(e, SearchRoute).status == ClassifyError(e, ReviewRoute).status
  {
  }

  /** In `/search`, a response without a truthy `data.error` is answered with its own
      status and `"Flask API error (<status>)"`. */
  lemma SearchFallbackNamesStatus(e: AxiosError)
    requires e.response.Some? && !JsTruthy(DataError(e.response.value.data))
    ensures ClassifyError(e, SearchRoute)
         == Reply(e.response.value.status, ErrorBody(StatusMessage(SearchRoute, e.response.value.status)))
    ensures StatusMessage(SearchRoute, e.response.value.status)[..15] == "Flask API error"
  {
  }

  /** The reply for a finished backend call: success is passed through unchanged, and
      every failure goes to the route's classifier. */
  function Respond(outcome: CallOutcome, route: Route): (r: Reply)
    ensures outcome.Resolved? ==> r == Reply(outcome.response.status, outcome.response.data)
    ensures outcome.Failed? ==> r == ClassifyError(outcome.error, route)
    ensures outcome.Failed? ==> IsErrorEnvelope(r.body)
  {
    match outcome
    case Resolved(resp) => Reply(resp.status, resp.data)
    case Failed(e) => ClassifyError(e, route)
  }

  // ----- GET / -----

  datatype UiReply = SendUiFile | UiNotFound(status: int, text: string)

  /** `GET /`: the page when `views/ui.html` exists, otherwise 404. */
  function ServeUi(uiExists: bool): (r: UiReply)
    ensures r.SendUiFile? <==> uiExists
    ensures !uiExists ==> r == UiNotFound(404, UiNotFoundText)
  {
    if !uiExists then UiNotFound(404, UiNotFoundText) else SendUiFile
  }

  // ----- POST /search -----

  /** The destructured `req.body` of `/search`; `limitParsed` is `parseInt(limit, 10)`,
      with `None` for `NaN` (an absent or unparsable limit). */
  datatype SearchBody = SearchBody(query: Option<Json>, limitParsed: Option<int>, requirePdf: Option<Json>)

  /** `parseInt(limit, 10) || 15`: 0 and NaN are falsy, every other number is kept. */
  function EffectiveLimit(limitParsed: Option<int>): (n: int)
    ensures n != 0
    ensures limitParsed.Some? && limitParsed.value != 0 ==> n == limitParsed.value
    ensures limitParsed.None? || limitParsed == Some(0) ==> n == DefaultSearchLimit
  {
    match limitParsed
    case Some(v) => if v != 0 then v else DefaultSearchLimit
    case None => DefaultSearchLimit
  }

  /** The validation prefix of `/search`: the limit it forwards, or the 400 reply. */
  function ValidateSearch(b: SearchBody): (r: Result<int, Reply>)
    ensures r.Ok? <==> JsTruthy(b.query) && 1 <= EffectiveLimit(b.limitParsed) <= 100
    ensures !JsTruthy(b.query) ==> r == Err(Reply(400, ErrorBody(QueryRequired)))
    ensures JsTruthy(b.query) && b.limitParsed.Some? && b.limitParsed.value < 0 ==>
      r == Err(Reply(400, ErrorBody(LimitOutOfRange)))
    ensures JsTruthy(b.query) && b.limitParsed.Some? && b.limitParsed.value > 100 ==>
      r == Err(Reply(400, ErrorBody(LimitOutOfRange)))
    ensures r.Ok? ==> 1 <= r.value <= 100
    ensures r.Ok? && (b.limitParsed.None? || b.limitParsed == Some(0)) ==> r.value == DefaultSearchLimit
    ensures r.Ok? && b.limitParsed.Some? && b.limitParsed.value != 0 ==> r.value == b.limitParsed.value
  {
    if !JsTruthy(b.query) then Err(Reply(400, ErrorBody(QueryRequired)))
    else
      var validatedLimit := EffectiveLimit(b.limitParsed);
      if validatedLimit <= 0 || validatedLimit > 100 then Err(Reply(400, ErrorBody(LimitOutOfRange)))
      else Ok(validatedLimit)
  }

  /** `POST /search`. Only a boolean `true` in `requirePdf` adds the query flag; the
      string `"true"` does not. The forwarded body holds the query and the validated limit only. */
  method HandleSearch(flaskBaseUrl: string, b: SearchBody, backend: CallOutcome) returns (ex: Exchange)
    ensures ValidateSearch(b).Err? ==> ex == Exchange(None, ValidateSearch(b).error)
    ensures ValidateSearch(b).Ok? ==>
      ex.call == Some(JsonPost(
        flaskBaseUrl + FlaskSearchEndpoint + (if b.requirePdf == Some(JBool(true)) then RequirePdfQuery else ""),
        JObj(map["query" := b.query.value, "limit" := JInt(ValidateSearch(b).value)]),
        SearchTimeoutMs))
    ensures ValidateSearch(b).Ok? ==> ex.reply == Respond(backend, SearchRoute)
    ensures ValidateSearch(b).Ok? && backend.Resolved? ==>
      ex.reply == Reply(backend.response.status, backend.response.data)
  {
    var validated := ValidateSearch(b);
    if validated.Err? {
      return Exchange(None, validated.error);
    }
    var targetUrl := flaskBaseUrl + FlaskSearchEndpoint;
    if b.requirePdf == Some(JBool(true)) {
      targetUrl := targetUrl + RequirePdfQuery;
    } else {
      assert targetUrl == targetUrl + "";   // the sequence identity the postcondition's `+ ""` needs
    }
    var call := JsonPost(targetUrl, JObj(map["query" := b.query.value, "limit" := JInt(validated.value)]), SearchTimeoutMs);
    ex := Exchange(Some(call), Respond(backend, SearchRoute));
  }

  // ----- POST /generate-review -----

  /** What multer keeps of the `pdfFile` field (memory storage). */
  datatype UploadedFile = UploadedFile(originalname: string, mimetype: string, buffer: seq<bv8>)

  /** The multipart body under construction. */
  class FormData {
    var parts: seq<FormPart>

    constructor ()
      ensures parts == []
    {
      parts := [];
    }

    method Append(name: string, content: seq<bv8>, filename: string, contentType: string)
      modifies this
      ensures parts == old(parts) + [FormPart(name, content, filename, contentType)]
    {
      parts := parts + [FormPart(name, content, filename, contentType)];
    }
  }

  /** The 400 message for a file that is not a PDF; it names the offending type. */
  function InvalidFileTypeMessage(mimetype: string): (m: string)
    ensures |m| > |mimetype| + 19
    ensures m[19..19 + |mimetype|] == mimetype
  {
    var m := "Invalid file type: " + mimetype + ". Please upload a PDF.";
    assert m[19..19 + |mimetype|] == mimetype;
    m
  }

  /** `POST /generate-review`: the missing file is reported before a wrong type; an
      accepted file is forwarded as the single multipart field `pdfFile`. */
  method HandleGenerateReview(flaskBaseUrl: string, file: Option<UploadedFile>, backend: CallOutcome) returns (ex: Exchange)
    ensures file.None? ==> ex == Exchange(None, Reply(400, ErrorBody(NoFileUploaded)))
    ensures file.Some? && file.value.mimetype != PdfMimetype ==>
      ex == Exchange(None, Reply(400, ErrorBody(InvalidFileTypeMessage(file.value.mimetype))))
    ensures file.Some? && file.value.mimetype == PdfMimetype ==>
      ex.call == Some(MultipartPost(
        flaskBaseUrl + FlaskProcessFileEndpoint,
        [FormPart(UploadField, file.value.buffer, file.value.originalname, PdfMimetype)],
        ReviewTimeoutMs))
    ensures file.Some? && file.value.mimetype == PdfMimetype ==> ex.reply == Respond(backend, ReviewRoute)
    ensures ex.call.Some? && backend.Resolved? ==> ex.reply == Reply(backend.response.status, backend.response.data)
  {
    if file.None? {
      return Exchange(None, Reply(400, ErrorBody(NoFileUploaded)));
    }
    var f := file.value;
    if f.mimetype != PdfMimetype {
      return Exchange(None, Reply(400, ErrorBody(InvalidFileTypeMessage(f.mimetype))));
    }
    var form := new FormData();
    form.Append(UploadField, f.buffer, f.originalname, f.mimetype);
    assert form.parts == [FormPart(UploadField, f.buffer, f.originalname, PdfMimetype)];
    var flaskProcessUrl := flaskBaseUrl + FlaskProcessFileEndpoint;
    ex := Exchange(Some(MultipartPost(flaskProcessUrl, form.parts, ReviewTimeoutMs)), Respond(backend, ReviewRoute));
  }

  // ----- POST /generate-review-url -----

  /** `POST /generate-review-url`. `urlParses` says whether `new URL(pdfUrl)` returns
      without throwing; it is consulted only once `pdfUrl` is a non-empty string. */
  function GenerateReviewUrl(flaskBaseUrl: string, pdfUrl: Option<Json>, urlParses: bool, backend: CallOutcome): (ex: Exchange)
    ensures ex.call.Some? <==> pdfUrl.Some? && pdfUrl.value.JStr? && pdfUrl.value.s != "" && urlParses
    ensures !(pdfUrl.Some? && pdfUrl.value.JStr? && pdfUrl.value.s != "") ==>
      ex == Exchange(None, Reply(400, ErrorBody(InvalidPdfUrl)))
    ensures pdfUrl.Some? && pdfUrl.value.JStr? && pdfUrl.value.s != "" && !urlParses ==>
      ex == Exchange(None, Reply(400, ErrorBody(InvalidUrlFormat)))
    ensures ex.call.Some? ==>
      ex.call.value == JsonPost(flaskBaseUrl + FlaskProcessUrlEndpoint, JObj(map["pdfUrl" := pdfUrl.value]), ReviewTimeoutMs)
      && ex.reply == Respond(backend, ReviewRoute)
  {
    if !JsTruthy(pdfUrl) || !pdfUrl.value.JStr? then Exchange(None, Reply(400, ErrorBody(InvalidPdfUrl)))
    else if !urlParses then Exchange(None, Reply(400, ErrorBody(InvalidUrlFormat)))
    else
      var flaskProcessUrl := flaskBaseUrl + FlaskProcessUrlEndpoint;
      Exchange(Some(JsonPost(flaskProcessUrl, JObj(map["pdfUrl" := pdfUrl.value]), ReviewTimeoutMs)),
               Respond(backend, ReviewRoute))
  }
}
